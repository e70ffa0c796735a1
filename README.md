# SoundHz sound-board persistence and editors, modelled in Dafny

SoundHz is a personal sound-board manager. Its boards are kept on local disk as one JSON
document. The repository holds two generations of the app, and this project models the core
of both:

**First generation.**
- The file-backed store `SoundBoardStorageService` (module `Storage`). It lists, saves, adds
  and removes boards in one backing file, and reseeds three default boards when the file is
  missing or cannot be parsed.
- The validated, mutable board `SoundBoard` (module `Models`).
- The two board-entry view models `SoundBoardDetailEntryViewModel` (module `DetailEntry`) and
  `SoundBoardDetailsEntryViewModel` (module `DetailsEntry`).

**Second generation.**
- The configuration records `SoundDefinition`, `SoundBoardDefinition` and
  `SoundBoardConfiguration`, with their DataAnnotations rules as validity predicates (module
  `Definitions`).
- `SoundBoardRepository` and the shared `SoundBoardStateStore` (module `Repository`).
- `MainViewModel` (module `MainView`) and `EditSoundViewModel` (module `EditSound`).

**Shared.**
- `Common`: C#'s `null` as `Option.None`, and exceptions as `Result`/`Outcome` values with an
  `Error` kind.
- `Text`: the .NET string operations the code relies on. These are `char.IsWhiteSpace`,
  `string.IsNullOrWhiteSpace`, `Trim`, the argument guards, `OrdinalIgnoreCase` and the
  decimal formatting of an `int`.

**How the model is built.**
- **Files.** Both backing files are abstract states: missing, unparseable, the JSON `null`, or
  a stored value.
- **Specification functions.** Each store operation has a pure function that gives its result
  and the file it leaves: `ListOutcome`, `AddOutcome`, `RemoveOutcome`, `LoadOutcome` and
  `SaveOutcome`.
- **Classes.** The classes hold the mutable state: the file, the form fields, the flags and the
  edited board. Their methods are proved to do exactly what the functions say.
- **Lemmas.** The lemmas relate the functions: list after save, list after add, list after
  remove, load after save, two adds in a row, idempotence and validity preservation.
- **Ghost logs.**
  - Log calls become ghost event sequences.
  - Messenger sends, navigation, alerts and events are ghost sequences or counters.
- **Sequential steps.** Each store operation runs under one semaphore in the source. Here it is
  one sequential step, so the "no lost update" property is `TwoAddsKeepBoth`.

### Behaviour worth knowing

These are facts about the code that callers of the store and the forms may not expect. The
model states each of them.
- **Add checks the board after loading.** `AddSoundBoardAsync` loads first
  (src/Services/SoundBoardStorageService.cs:126), and `LoadInternalAsync` seeds a missing file
  with the defaults. Only then does it call `Clone` (line 127), which rejects a blank title.
  So a board with a blank title is rejected after the defaults have already been written
  (`Storage.AddOutcome`: a failure leaves `AfterLoad(f)`).
- **Add and remove fail on a corrupt file.** `LoadInternalAsync` (lines 186-198) has no
  handler for a parse error. Add and remove therefore fail with it and do not reseed the file.
  Only listing (lines 84-90) catches `JsonException` and reseeds.
- **Listing can fail on a stored board.**
  - Listing catches only `JsonException`, so an `ArgumentException` from a stored board gets
    through.
  - A title that is present but blank is refused by the Title setter while the file is read
    (src/Models/SoundBoard.cs:52).
  - An absent title leaves the empty string from the parameterless constructor, and `Clone`
    then refuses it (line 74).
  - In both cases listing fails with an `ArgumentException`. The file is neither returned nor
    reseeded.
- **`[Required]` means "not blank".** On a string, `[Required]` (empty strings not allowed)
  rejects null, empty and whitespace-only values. Validity is therefore "not null and not
  blank", and `[MinLength(1)]` adds nothing to it (`RequiredTextIsRequired`).
- **The parameterless constructor.** `SoundBoard()` (src/Models/SoundBoard.cs:14-16) leaves
  the title empty, so a board with a blank title does exist. Cloning one fails
  (`CloneOfUntitledBoard`).

## Model

| member | source | states |
|---|---|---|
| `Text.IsWhiteSpace` | src/Models/SoundBoard.cs:25 | the characters `char.IsWhiteSpace` accepts: U+0009..U+000D, the space, U+0085, U+00A0, U+1680, U+2000..U+200A, U+2028, U+2029, U+202F, U+205F and U+3000 |
| `Text.NullOrWhiteSpace` | src/ViewModels/SoundBoardDetailEntryViewModel.cs:113 | `string.IsNullOrWhiteSpace`: null, or every character white space (the empty string included) |
| `Text.CheckNotBlank` | src/Models/SoundBoard.cs:25 | the guard passes exactly for a non-null string with a non-white-space character; null is ArgumentNull, a blank string ArgumentBlank |
| `Text.CheckNotNull` | src/Models/SoundBoard.cs:26 | `ThrowIfNull`: only null fails, with ArgumentNull |
| `Text.TrimStart` | src/ViewModels/SoundBoardDetailEntryViewModel.cs:79 | the result is a suffix of the input, the dropped prefix is all white space, and the result does not start with white space |
| `Text.TrimEnd` | src/ViewModels/SoundBoardDetailEntryViewModel.cs:79 | the result is a prefix, the dropped suffix is all white space, and the result does not end with white space |
| `Text.Trim` | src/ViewModels/SoundBoardDetailEntryViewModel.cs:79 | `string.Trim()` drops leading, then trailing, white space; what it keeps is stated by `TrimIsSlice` |
| `Text.TrimIsSlice` | src/ViewModels/SoundBoardDetailEntryViewModel.cs:79 | `Trim` keeps a contiguous slice of the input, drops only white space at the two ends, and leaves no white space at either end |
| `Text.TrimBlank` | src/ViewModels/SoundBoardDetailsEntryViewModel.cs:69 | trimming gives the empty string exactly for a blank input, and the trimmed string is blank exactly when the input is |
| `Text.TrimIdempotent` | src/ViewModels/SoundBoardDetailEntryViewModel.cs:79-80 | trimming an already trimmed title changes nothing |
| `Text.ToUpperOrdinal` | src/Services/SoundBoardStorageService.cs:147 | the per-character upper-case mapping OrdinalIgnoreCase compares by, for U+0000..U+00FF; other characters map to themselves |
| `Text.EqualsIgnoreCase` | src/Services/SoundBoardStorageService.cs:147 | `string.Equals(a, b, OrdinalIgnoreCase)`: equal lengths and equal mappings, character by character |
| `Text.EqualsIgnoreCaseAt` | src/Services/SoundBoardStorageService.cs:147 | OrdinalIgnoreCase equality holds exactly for equal lengths and equal upper-case mappings at every position |
| `Text.EqualsIgnoreCaseIsEquivalence` | src/Services/SoundBoardStorageService.cs:147 | the removal match is reflexive, symmetric and transitive |
| `Text.RetroMatchesUpperCase` | src/Services/SoundBoardStorageService.cs:147 | "Retro" matches "RETRO" and does not match "Retro " |
| `Text.DigitChar` | src/SoundHz.SoundBoard/ViewModels/MainViewModel.cs:69 | the digit character for a value below ten, whose code minus '0' is that value |
| `Text.NatToString` | src/SoundHz.SoundBoard/ViewModels/MainViewModel.cs:69 | the formatted count is a non-empty string of decimal digits with no leading zero |
| `Text.NatToStringRoundTrip` | src/SoundHz.SoundBoard/ViewModels/MainViewModel.cs:69 | reading the digits back gives the number, so the formatting is injective |
| `Models.Titled` | src/Models/SoundBoard.cs:52 | the board contents the validating paths accept: a title that is not blank |
| `Models.CheckNew` | src/Models/SoundBoard.cs:23-30 | the two-argument constructor accepts exactly a non-blank title and a non-null description; the error is ArgumentBlank exactly for a present blank title |
| `Models.SoundBoard.constructor` | src/Models/SoundBoard.cs:8-16 | the parameterless constructor leaves both fields empty |
| `Models.SoundBoard.Value` | src/Models/SoundBoard.cs:47-68 | the board's content: what the Title and Description getters return |
| `Models.SoundBoard.New` | src/Models/SoundBoard.cs:23-30 | succeeds exactly when `CheckNew` passes, with that error otherwise, and returns a new board holding the given title and description |
| `Models.SoundBoard.Copy` | src/Models/SoundBoard.cs:36-42 | the copy constructor fails only on null and otherwise returns a new board with both fields copied, unchecked |
| `Models.SoundBoard.SetTitle` | src/Models/SoundBoard.cs:47-55 | the setter accepts exactly a non-blank value; a rejected value leaves the title unchanged; the description never changes |
| `Models.SoundBoard.SetDescription` | src/Models/SoundBoard.cs:60-68 | the setter accepts exactly non-null values, the empty string included; a rejected value leaves the description unchanged |
| `Models.SoundBoard.Clone` | src/Models/SoundBoard.cs:74 | succeeds exactly for a board with a non-blank title (ArgumentBlank otherwise) and returns a new object with the same content |
| `Models.CloneThenRetitle` | src/Models/SoundBoard.cs:74 | a clone is a different object, and retitling the original afterwards leaves the clone's content as it was |
| `Models.CloneOfUntitledBoard` | src/Models/SoundBoard.cs:14-16 | a board from the parameterless constructor cannot be cloned (ArgumentBlank), but the copy constructor copies it |
| `Storage.DefaultBoards` | src/Services/SoundBoardStorageService.cs:206-214 | exactly three boards titled "Arcade Classics", "Sci-Fi Toolkit" and "Fantasy Adventure", in that order, all with non-blank titles |
| `Storage.AllTitled` | src/Services/SoundBoardStorageService.cs:82 | every board of a list has a non-blank title, so each can be cloned |
| `Storage.LoadedBoards` | src/Services/SoundBoardStorageService.cs:186-198 | over the stored states the model represents, loading fails exactly on unparseable content (JsonParse) or a stored board with a blank title (ArgumentBlank); a success holds only titled boards and is the stored list itself |
| `Storage.AfterLoad` | src/Services/SoundBoardStorageService.cs:186-193 | the file after `LoadInternalAsync`: a missing file has been seeded with the defaults, any other file is untouched |
| `Storage.ListOutcome` | src/Services/SoundBoardStorageService.cs:64-95 | a missing or unparseable file yields the defaults and writes them; JSON null yields the empty list without a write; a stored list is returned unchanged and not rewritten; the model's only listing failure is ArgumentBlank, for a stored board with a blank title, and it leaves the file |
| `Storage.Matches` | src/Services/SoundBoardStorageService.cs:147 | the removal predicate: the title compares equal under OrdinalIgnoreCase |
| `Storage.RemoveMatching` | src/Services/SoundBoardStorageService.cs:147 | the kept boards are boards of the input, none of them matches the title |
| `Storage.CountMatching` | src/Services/SoundBoardStorageService.cs:147-149 | the number of matching boards, which `RemoveAll` returns; `RemoveMatchingCount` relates it to the kept boards |
| `Storage.RemoveMatchingAppend` | src/Services/SoundBoardStorageService.cs:147 | removal distributes over concatenation, so the kept boards keep their order |
| `Storage.RemoveMatchingKeeps` | src/Services/SoundBoardStorageService.cs:147 | a stored board is kept exactly when its title does not match |
| `Storage.RemoveMatchingCount` | src/Services/SoundBoardStorageService.cs:147-149 | kept plus removed is the original count; the removed count is zero exactly when no board matches, exactly when nothing changes |
| `Storage.RemoveMatchingIdempotent` | src/Services/SoundBoardStorageService.cs:147 | removing the same title again removes nothing |
| `Storage.RemoveMatchingTitled` | src/Services/SoundBoardStorageService.cs:147 | removal never brings back a board with a blank title |
| `Storage.AddOutcome` | src/Services/SoundBoardStorageService.cs:117-134 | add succeeds exactly when the load succeeds and the board is titled; it then writes the loaded list with the board appended, and otherwise leaves the file as the load left it |
| `Storage.RemoveOutcome` | src/Services/SoundBoardStorageService.cs:137-161 | remove succeeds exactly when the load does; it warns exactly when no board matches and then writes nothing beyond the seeding; otherwise it writes the kept boards |
| `Storage.ListSeedsDefaults` | src/Services/SoundBoardStorageService.cs:72-77 | listing a missing file returns and writes the defaults, and listing again reads the same boards back |
| `Storage.WritesAreTitled` | src/Services/SoundBoardStorageService.cs:127-128 | every file that list, add or remove writes holds only boards with non-blank titles |
| `Storage.SaveThenList` | src/Services/SoundBoardStorageService.cs:79-82 | listing a file holding saved titled boards returns exactly those boards, in order, and does not write |
| `Storage.AddThenList` | src/Services/SoundBoardStorageService.cs:126-128 | after a successful add, listing returns the previous boards with the new one at the end |
| `Storage.TwoAddsKeepBoth` | src/Services/SoundBoardStorageService.cs:121-133 | two adds in sequence leave both boards, in order, after the previous ones: no update is lost |
| `Storage.RemoveThenListKept` | src/Services/SoundBoardStorageService.cs:146-155 | after a successful remove, listing returns exactly the boards that did not match, in their original order |
| `Storage.ListAfterLoad` | src/Services/SoundBoardStorageService.cs:186-198 | listing right after a successful load returns what the load returned and writes nothing more |
| `Storage.RemoveNothingIsNoOp` | src/Services/SoundBoardStorageService.cs:149-153 | a remove that matches nothing on a present file succeeds, warns and leaves the file exactly as it was |
| `Storage.Materialize` | src/Services/SoundBoardStorageService.cs:82 | the returned boards are new, distinct objects holding the given contents position by position |
| `Storage.Snapshot` | src/Services/SoundBoardStorageService.cs:107 | copying succeeds exactly when every element is non-null with a non-blank title, then holds their contents in order; otherwise the error comes from the first element that cannot be copied (every element before it is copyable): NullReference if it is null, ArgumentBlank if its title is blank |
| `Storage.SoundBoardStorageService.constructor` | src/Services/SoundBoardStorageService.cs:50-61 | the store starts on the given backing file with nothing logged |
| `Storage.SoundBoardStorageService.SaveInternal` | src/Services/SoundBoardStorageService.cs:200-204 | the file is replaced by the given boards |
| `Storage.SoundBoardStorageService.LoadInternal` | src/Services/SoundBoardStorageService.cs:186-198 | returns `LoadedBoards` of the file and leaves it seeded if it was missing, untouched otherwise |
| `Storage.SoundBoardStorageService.GetSoundBoards` | src/Services/SoundBoardStorageService.cs:64-95 | returns new, distinct objects holding `ListOutcome`'s boards or its error, leaves the file as `ListOutcome` says, and logs the reset exactly for an unparseable file |
| `Storage.SoundBoardStorageService.SaveSoundBoards` | src/Services/SoundBoardStorageService.cs:98-114 | null is rejected with the file untouched; otherwise the file holds copies of exactly the given boards in order, or is untouched when a copy fails |
| `Storage.SoundBoardStorageService.AddSoundBoard` | src/Services/SoundBoardStorageService.cs:117-134 | null is rejected with the file untouched; otherwise result and file are as `AddOutcome` says |
| `Storage.SoundBoardStorageService.RemoveSoundBoard` | src/Services/SoundBoardStorageService.cs:137-161 | a null or blank title is rejected before any access; otherwise result and file are as `RemoveOutcome` says, and the not-found warning is logged exactly when nothing matched |
| `Storage.SaveThenListBoards` | src/Services/SoundBoardStorageService.cs:98-109 | save followed by list returns new objects equal by value to the saved boards, in order |
| `Storage.AddThenRetitle` | src/Services/SoundBoardStorageService.cs:127 | retitling a board after adding it does not change what was stored |
| `Definitions.NewSound` | src/SoundHz.SoundBoard/Models/SoundDefinition.cs:13-29 | a new sound has the empty string in all three properties |
| `Definitions.NewBoardDefinition` | src/SoundHz.SoundBoard/Models/SoundBoardDefinition.cs:14-29 | a new board has an empty name and description and an empty list of sounds |
| `Definitions.EmptyConfiguration` | src/SoundHz.SoundBoard/Models/SoundBoardConfiguration.cs:15 | a new configuration has an empty list of boards |
| `Definitions.Required` | src/SoundHz.SoundBoard/Models/SoundDefinition.cs:13 | `[Required]` on a string: not null and not white space only |
| `Definitions.MinLength1` | src/SoundHz.SoundBoard/Models/SoundDefinition.cs:14 | `[MinLength(1)]`: null passes, otherwise at least one character |
| `Definitions.RequiredText` | src/SoundHz.SoundBoard/Models/SoundDefinition.cs:13-14 | a string property carrying both attributes |
| `Definitions.RequiredTextIsRequired` | src/SoundHz.SoundBoard/Models/SoundDefinition.cs:13-15 | a required text field is exactly a non-null string with a non-white-space character; `[MinLength(1)]` adds nothing to `[Required]` |
| `Definitions.ValidSound` | src/SoundHz.SoundBoard/Models/SoundDefinition.cs:13-29 | the validator accepts a sound exactly when name, description and file path are all required text |
| `Definitions.BoardFieldsValid` | src/SoundHz.SoundBoard/Models/SoundBoardDefinition.cs:14-29 | the validator accepts a board object on its own: required name and description, and a list of sounds that is not null, whose elements it does not inspect |
| `Definitions.ValidBoard` | src/SoundHz.SoundBoard/Services/SoundBoardRepository.cs:73-80 | a board passes the repository's walk: its own fields and every one of its sounds are valid |
| `Definitions.ValidConfiguration` | src/SoundHz.SoundBoard/Services/SoundBoardRepository.cs:66-82 | a configuration passes the repository's walk: a list of boards that is not null, every board valid |
| `Definitions.DefaultsValidity` | src/SoundHz.SoundBoard/Models/SoundBoardDefinition.cs:14-29 | a new sound and a new board fail validation on every text field, a new board has an empty list of sounds, and the empty configuration is valid |
| `Definitions.NamedBoardIsValid` | src/SoundHz.SoundBoard/Models/SoundBoardDefinition.cs:14-29 | a new board with a required name and description is valid, its empty list of sounds included |
| `Definitions.AppendBoardValid` | src/SoundHz.SoundBoard/Services/SoundBoardRepository.cs:71-81 | appending a valid board keeps a configuration valid |
| `Repository.ValidateConfiguration` | src/SoundHz.SoundBoard/Services/SoundBoardRepository.cs:66-82 | the nested walk passes exactly for a configuration with a list of boards, every board valid with every sound valid; failures are Validation |
| `Repository.LoadOutcome` | src/SoundHz.SoundBoard/Services/SoundBoardRepository.cs:24-45 | a load succeeds exactly unless the content is unparseable or the stored configuration is invalid; a success is always valid and is the stored configuration when there is one |
| `Repository.LoadLog` | src/SoundHz.SoundBoard/Services/SoundBoardRepository.cs:36-43 | a missing file logs nothing, a successful read logs Loaded, and a failure logs LoadFailed with its error |
| `Repository.SaveOutcome` | src/SoundHz.SoundBoard/Services/SoundBoardRepository.cs:48-56 | a save succeeds exactly for a non-null valid configuration and then stores it; otherwise the file is unchanged, with ArgumentNull or Validation |
| `Repository.SaveThenLoad` | src/SoundHz.SoundBoard/Services/SoundBoardRepository.cs:55-56 | a successful save is loaded back equal; a rejected save leaves the file, so a load returns what it returned before |
| `Repository.LoadDefaults` | src/SoundHz.SoundBoard/Services/SoundBoardRepository.cs:28-35 | a missing file and JSON null both load as a configuration with no boards, and whatever Save wrote loads without error |
| `Repository.SoundBoardRepository.constructor` | src/SoundHz.SoundBoard/Services/SoundBoardRepository.cs:15-21 | the repository starts on the given configuration file with nothing logged |
| `Repository.SoundBoardRepository.Load` | src/SoundHz.SoundBoard/Services/SoundBoardRepository.cs:24-45 | returns `LoadOutcome` of the file, logs `LoadLog`, and never writes the file |
| `Repository.SoundBoardRepository.Save` | src/SoundHz.SoundBoard/Services/SoundBoardRepository.cs:48-64 | result and file are as `SaveOutcome` says, and Saved is logged exactly after a write |
| `Repository.SoundBoardStateStore.constructor` | src/SoundHz.SoundBoard/Services/SoundBoardStateStore.cs:11 | the shared configuration starts empty |
| `Repository.SaveThenLoadConfiguration` | src/SoundHz.SoundBoard/Services/SoundBoardRepository.cs:55-56 | on one repository, saving a valid configuration and loading returns it, logging Saved then Loaded |
| `MainView.NewBoard` | src/SoundHz.SoundBoard/ViewModels/MainViewModel.cs:67-71 | the new board is named "Sound Board " followed by the decimal digits of `n + 1` with no leading zero, described "New sound board", with no sounds |
| `MainView.NewBoardValid` | src/SoundHz.SoundBoard/ViewModels/MainViewModel.cs:69-70 | the new board passes board validation |
| `MainView.NewBoardNamesDistinct` | src/SoundHz.SoundBoard/ViewModels/MainViewModel.cs:69 | boards created at different counts get different names |
| `MainView.AfterInitialize` | src/SoundHz.SoundBoard/ViewModels/MainViewModel.cs:50-62 | once initialized nothing changes; otherwise the store takes the loaded configuration, or the load's error is raised and the store keeps its content |
| `MainView.AppendNewBoard` | src/SoundHz.SoundBoard/ViewModels/MainViewModel.cs:66-72 | counting a null list fails with NullReference; otherwise exactly one board named after the previous count is appended and the others are kept |
| `MainView.AppendNewBoardValid` | src/SoundHz.SoundBoard/ViewModels/MainViewModel.cs:66-72 | adding a board to a valid configuration keeps it valid |
| `MainView.TwoAddsNameDistinctly` | src/SoundHz.SoundBoard/ViewModels/MainViewModel.cs:69 | two adds in a row append two boards with different names |
| `MainView.MainViewModel.constructor` | src/SoundHz.SoundBoard/ViewModels/MainViewModel.cs:18-28 | the view model shares the given repository and state store, is not initialized, and has navigated nowhere |
| `MainView.MainViewModel.SoundBoards` | src/SoundHz.SoundBoard/ViewModels/MainViewModel.cs:33 | the list shown is the state store's list itself, not a copy |
| `MainView.MainViewModel.Initialize` | src/SoundHz.SoundBoard/ViewModels/MainViewModel.cs:50-62 | state and result are as `AfterInitialize` says, the flag is set exactly after a successful load, and the repository is consulted only when not yet initialized |
| `MainView.MainViewModel.AddSoundBoard` | src/SoundHz.SoundBoard/ViewModels/MainViewModel.cs:64-74 | initializes first; a failed initialization or a null list changes nothing else; otherwise the store is `AppendNewBoard`'s and the new board is navigated to |
| `MainView.MainViewModel.NavigateToBoard` | src/SoundHz.SoundBoard/ViewModels/MainViewModel.cs:76-86 | a null board is ignored; otherwise exactly that board is navigated to |
| `MainView.InitializeTwice` | src/SoundHz.SoundBoard/ViewModels/MainViewModel.cs:52-55 | a second initialization after a successful one succeeds without touching the store or the repository |
| `EditSound.IndexOf` | src/SoundHz.SoundBoard/ViewModels/EditSoundViewModel.cs:206 | the position found is the first occurrence, or the length when there is none |
| `EditSound.RemoveFirst` | src/SoundHz.SoundBoard/ViewModels/EditSoundViewModel.cs:206 | removal drops exactly the first occurrence, and nothing when there is none |
| `EditSound.ReplaceFirst` | src/SoundHz.SoundBoard/ViewModels/EditSoundViewModel.cs:186-188 | the edited sound's position holds the new values and the length is unchanged |
| `EditSound.RemoveFirstMultiset` | src/SoundHz.SoundBoard/ViewModels/EditSoundViewModel.cs:206 | delete takes exactly one copy of the sound out of the list |
| `EditSound.ReplaceFirstMultiset` | src/SoundHz.SoundBoard/ViewModels/EditSoundViewModel.cs:186-193 | editing trades one copy of the old sound for the new one, membership otherwise unchanged |
| `EditSound.AppendThenRemove` | src/SoundHz.SoundBoard/ViewModels/EditSoundViewModel.cs:192 | a sound saved in create mode and then deleted leaves the same sounds |
| `EditSound.SavedBoard` | src/SoundHz.SoundBoard/ViewModels/EditSoundViewModel.cs:186-193 | create mode appends the sound once (NullReference on a null list); edit mode keeps the list's length, or the board when the list is null |
| `EditSound.SavedBoardSounds` | src/SoundHz.SoundBoard/ViewModels/EditSoundViewModel.cs:190-193 | create mode adds exactly the written sound; edit mode swaps the old sound for the new one, or changes nothing if it is absent |
| `EditSound.FormSound` | src/SoundHz.SoundBoard/ViewModels/EditSoundViewModel.cs:186-188 | the sound as the form's three fields describe it |
| `EditSound.SaveAllowed` | src/SoundHz.SoundBoard/ViewModels/EditSoundViewModel.cs:174-177 | name and file path are neither null nor white space; the description is not looked at |
| `EditSound.SaveGuardAndValidity` | src/SoundHz.SoundBoard/ViewModels/EditSoundViewModel.cs:174-177 | a sound from the form is valid exactly when the save guard holds and the description is required text; the guard ignores the description |
| `EditSound.EditSoundViewModel.constructor` | src/SoundHz.SoundBoard/ViewModels/EditSoundViewModel.cs:24-29 | no parent, no sound, edit mode off, empty form fields |
| `EditSound.EditSoundViewModel.CanDelete` | src/SoundHz.SoundBoard/ViewModels/EditSoundViewModel.cs:114 | delete is offered exactly outside create mode |
| `EditSound.EditSoundViewModel.CanSave` | src/SoundHz.SoundBoard/ViewModels/EditSoundViewModel.cs:174-177 | save is enabled exactly when `SaveAllowed` holds for the form's name and file path |
| `EditSound.EditSoundViewModel.PrepareForCreate` | src/SoundHz.SoundBoard/ViewModels/EditSoundViewModel.cs:120-132 | null is rejected; otherwise a new empty sound in create mode with empty fields, so delete and save are disabled |
| `EditSound.EditSoundViewModel.PrepareForEdit` | src/SoundHz.SoundBoard/ViewModels/EditSoundViewModel.cs:139-152 | null is rejected; otherwise the form holds the sound's fields in edit mode, so delete is enabled |
| `EditSound.EditSoundViewModel.Save` | src/SoundHz.SoundBoard/ViewModels/EditSoundViewModel.cs:179-197 | does nothing before a Prepare call; otherwise writes the form into the sound and leaves the parent as `SavedBoard` says, with the saved event and the way back only on success |
| `EditSound.EditSoundViewModel.Delete` | src/SoundHz.SoundBoard/ViewModels/EditSoundViewModel.cs:199-209 | does nothing before a Prepare call; fails with NullReference on a null list; otherwise removes the sound from the parent's list, raises the event and goes back |
| `EditSound.CreateAndSave` | src/SoundHz.SoundBoard/ViewModels/EditSoundViewModel.cs:120-132 | create, fill in and save appends exactly the entered sound to the board |
| `DetailEntry.TrimmedTitleAccepted` | src/ViewModels/SoundBoardDetailEntryViewModel.cs:113 | under the add guard neither the constructor nor the Title setter rejects the trimmed title; a blank title trims to empty and is rejected as ArgumentBlank |
| `DetailEntry.SoundBoardDetailEntryViewModel.constructor` | src/ViewModels/SoundBoardDetailEntryViewModel.cs:12-42 | empty form, no edit target, the add labels |
| `DetailEntry.SoundBoardDetailEntryViewModel.CanAdd` | src/ViewModels/SoundBoardDetailEntryViewModel.cs:113 | add is enabled exactly when the title is not blank; the description is not looked at |
| `DetailEntry.SoundBoardDetailEntryViewModel.PrepareForCreate` | src/ViewModels/SoundBoardDetailEntryViewModel.cs:47-54 | clears the target and the fields and sets "Add New SoundBoard" and "Add" |
| `DetailEntry.SoundBoardDetailEntryViewModel.PrepareForEdit` | src/ViewModels/SoundBoardDetailEntryViewModel.cs:60-69 | null is rejected; otherwise copies the board's fields, remembers the board, and sets "Edit SoundBoard" and "Update" |
| `DetailEntry.SoundBoardDetailEntryViewModel.Add` | src/ViewModels/SoundBoardDetailEntryViewModel.cs:75-101 | writes the trimmed title back; create mode adds the board with the trimmed title and untrimmed description as `AddOutcome` says and sends that object; edit mode updates the target in place without the store; every failure is logged and returned |
| `DetailEntry.SoundBoardDetailEntryViewModel.AddNew` | src/ViewModels/SoundBoardDetailEntryViewModel.cs:81-87 | constructs, adds through the store as `AddOutcome` says, and sends the same new object on success |
| `DetailEntry.SoundBoardDetailEntryViewModel.UpdateEditing` | src/ViewModels/SoundBoardDetailEntryViewModel.cs:88-92 | a blank title is rejected before anything changes; otherwise both fields are set |
| `DetailsEntry.TrimmedFieldsAccepted` | src/ViewModels/SoundBoardDetailsEntryViewModel.cs:69 | with both fields non-blank the board from the trimmed fields is accepted and has a non-blank title and description |
| `DetailsEntry.SoundBoardDetailsEntryViewModel.constructor` | src/ViewModels/SoundBoardDetailsEntryViewModel.cs:23-46 | empty fields and not busy |
| `DetailsEntry.SoundBoardDetailsEntryViewModel.CanAddSoundBoard` | src/ViewModels/SoundBoardDetailsEntryViewModel.cs:92 | add is enabled exactly when neither field is blank and no add is in progress |
| `DetailsEntry.SoundBoardDetailsEntryViewModel.Add` | src/ViewModels/SoundBoardDetailsEntryViewModel.cs:59-83 | nothing when the guard fails; otherwise the store adds the trimmed board as `AddOutcome` says while busy, a separate equal copy is sent on success, an alert is shown on failure, nothing is rethrown, and busy is clear afterwards |
| `DetailsEntry.SoundBoardDetailsEntryViewModel.AddTrimmed` | src/ViewModels/SoundBoardDetailsEntryViewModel.cs:66-82 | sets busy, adds a new board with the given content, sends a distinct copy or shows an alert, and clears busy |

## Left out

- Locking and cancellation: the `SemaphoreSlim` of the store and the cancellation tokens. Each operation is one sequential step.
- The JSON wire format: System.Text.Json options, property-name casing, indentation. Files are abstract states.
- Directory creation, `FileStream` modes and sharing, path combination, and I/O errors such as permission or disk failures.
- `Storage.LoadedBoards`: a stored file is a list of board contents with non-null strings, so three stored files cannot be represented:
  - an array element that is the JSON literal `null`: `Clone` on it (src/Services/SoundBoardStorageService.cs:82, :197) throws NullReferenceException;
  - a board whose `"title"` is `null`: the Title setter (src/Models/SoundBoard.cs:52) throws ArgumentNullException while the file is read;
  - a board whose `"description"` is `null`: the Description setter (src/Models/SoundBoard.cs:65) throws ArgumentNullException while the file is read.

  These exceptions pass through list, add and remove, which catch only `JsonException`. The model has no state for them, so they are not modelled.
- `Storage.ListOutcome`: for the same reason, the listing failures NullReference (a null element) and ArgumentNull (a null title or description) are not modelled. Its only failure is ArgumentBlank. `Storage.AddOutcome` and `Storage.RemoveOutcome` lack the same two failures.
- `Repository.LoadOutcome`: JSON `null` elements inside a list of boards or sounds are not modelled. The lists hold definitions only, so the ArgumentNullException from validating a null element does not arise.
- `Text.ToUpperOrdinal`: case folding covers U+0000..U+00FF (ASCII, the Latin-1 letters, U+00B5, U+00FF). Other characters compare as themselves, so titles differing only in the case of other scripts are not matched.
- `EditSound.EditSoundViewModel.Save`: definitions are values. The view model's parent board is its own copy, not shared with the state store.
  - The edited sound is located in the parent's list as the first element equal to it by value, not by reference.
  - When several equal sounds exist, the model may update or remove an earlier one than the source would.
- `EditSound.EditSoundViewModel.Delete`: as for Save, the sound is removed as the first element equal by value. After `PrepareForCreate` this can remove an existing empty sound that the source, comparing references, would leave.
- The file picker (`PickFileAsync`) and the commands' `CanExecute` notifications are UI.
- Logging, navigation, the messenger and alerts are recorded only as ghost logs and counters.
- The `SoundBoards` property of `MainViewModel` is modelled only as a read of the state store. Assigning `null` to the state store's `Configuration` cannot be expressed, because the model's configuration is always a value.
- Cancel commands and the `CancelAsync` navigation back are not modelled; they touch no stored state.
- `ConfigurationBootstrapper`, `AppFileSystem`, `JsonSerializerService`, the playback service, the navigation service and every page are not part of this model.
