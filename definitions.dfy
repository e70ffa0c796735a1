/** The second generation's configuration data (src/SoundHz.SoundBoard/Models):
    plain records whose DataAnnotations attributes become validity predicates.

    Every string and collection property is a C# reference the deserializer may
    leave `null`, so each is an `Option`. The validity predicates say what the
    DataAnnotations validator accepts for one object (`BoardFieldsValid`,
    `ValidSound`), and then what the repository's nested walk accepts for a whole
    configuration (`ValidBoard`, `ValidConfiguration`). */
module Definitions {
  import opened Common
  import opened Text

  /** `SoundDefinition`: one playable entry. */
  datatype SoundDefinition = SoundDefinition(name: Option<string>, description: Option<string>, filePath: Option<string>)

  /** `SoundBoardDefinition`: a named board and its sounds. */
  datatype SoundBoardDefinition =
    SoundBoardDefinition(name: Option<string>, description: Option<string>, sounds: Option<seq<SoundDefinition>>)

  /** `SoundBoardConfiguration`: the persisted list of boards. */
  datatype SoundBoardConfiguration = SoundBoardConfiguration(soundBoards: Option<seq<SoundBoardDefinition>>)

  /** `new SoundDefinition()`: every property starts as the empty string. */
  function NewSound(): SoundDefinition {
    SoundDefinition(Some(""), Some(""), Some(""))
  }

  /** `new SoundBoardDefinition()`: empty name and description, an empty list of sounds. */
  function NewBoardDefinition(): SoundBoardDefinition {
    SoundBoardDefinition(Some(""), Some(""), Some([]))
  }

  /** `new SoundBoardConfiguration()`: an empty list of boards. */
  function EmptyConfiguration(): SoundBoardConfiguration {
    SoundBoardConfiguration(Some([]))
  }

  // ---------------------------------------------------------------------------
  // The attributes

  /** `[Required]` on a string: not null, and (empty strings not being allowed) not
      made of white space only. On a collection it means only "not null". */
  predicate Required(s: Option<string>) {
    s.Some? && !Blank(s.value)
  }

  /** `[MinLength(1)]` on a string: null passes (it is `[Required]`'s business),
      otherwise at least one character. */
  predicate MinLength1(s: Option<string>) {
    s.None? || |s.value| >= 1
  }

  /** A string property carrying both `[Required]` and `[MinLength(1)]`. */
  predicate RequiredText(s: Option<string>) {
    Required(s) && MinLength1(s)
  }

  /** `[MinLength(1)]` adds nothing to `[Required]`: a string that is not blank has
      a character. So a required text is exactly a non-null string with a character
      that is not white space. */
  lemma RequiredTextIsRequired(s: Option<string>)
    ensures RequiredText(s) <==> Required(s)
    ensures RequiredText(s) <==> s.Some? && exists i | 0 <= i < |s.value| :: !IsWhiteSpace(s.value[i])
  {
  }

  // ---------------------------------------------------------------------------
  // Validity

  /** What the validator accepts for one sound: all three properties are required text. */
  predicate ValidSound(s: SoundDefinition) {
    RequiredText(s.name) && RequiredText(s.description) && RequiredText(s.filePath)
  }

  /** What the validator accepts for one board object on its own: required name and
      description, and a (possibly empty) list of sounds. It does not look inside
      the list. */
  predicate BoardFieldsValid(b: SoundBoardDefinition) {
    RequiredText(b.name) && RequiredText(b.description) && b.sounds.Some?
  }

  /** A board and every sound in it. */
  predicate ValidBoard(b: SoundBoardDefinition) {
    BoardFieldsValid(b) && forall i | 0 <= i < |b.sounds.value| :: ValidSound(b.sounds.value[i])
  }

  /** A configuration with a list of boards, every one of them valid. */
  predicate ValidConfiguration(c: SoundBoardConfiguration) {
    c.soundBoards.Some? && forall i | 0 <= i < |c.soundBoards.value| :: ValidBoard(c.soundBoards.value[i])
  }

  /** Freshly constructed definitions fail validation until their text is set:
      the empty strings are not required text. The empty configuration is valid. */
  lemma DefaultsValidity()
    ensures !ValidSound(NewSound())
    ensures !RequiredText(NewSound().name) && !RequiredText(NewSound().description) && !RequiredText(NewSound().filePath)
    ensures !ValidBoard(NewBoardDefinition())
    ensures !RequiredText(NewBoardDefinition().name) && !RequiredText(NewBoardDefinition().description)
    ensures NewBoardDefinition().sounds == Some([])
    ensures ValidConfiguration(EmptyConfiguration())
  {
  }

  /** Setting a fresh board's name and description to required text makes it valid:
      its empty list of sounds is allowed. */
  lemma NamedBoardIsValid(name: Option<string>, description: Option<string>)
    requires Required(name) && Required(description)
    ensures ValidBoard(NewBoardDefinition().(name := name, description := description))
  {
    RequiredTextIsRequired(name);
    RequiredTextIsRequired(description);
  }

  /** Appending a valid board keeps a configuration valid, and keeps every board
      that was there before. */
  lemma {:induction false} AppendBoardValid(c: SoundBoardConfiguration, b: SoundBoardDefinition)
    requires ValidConfiguration(c) && ValidBoard(b)
    ensures ValidConfiguration(SoundBoardConfiguration(Some(c.soundBoards.value + [b])))
  {
    var bs := c.soundBoards.value + [b];
    forall i | 0 <= i < |bs|
      ensures ValidBoard(bs[i])
    {
      if i < |c.soundBoards.value| {
        assert bs[i] == c.soundBoards.value[i];
      }
    }
  }
}
