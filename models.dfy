/** The first generation's board entity (src/Models/SoundBoard.cs): a mutable
    object whose title and description are checked by its constructors and
    setters, and copied whenever it crosses the storage boundary. */
module Models {
  import opened Common
  import opened Text

  /** The content of one board, as the storage file holds it. */
  datatype BoardValue = BoardValue(title: string, description: string)

  /** A board the validating paths accept: its title is not blank. */
  predicate Titled(v: BoardValue) {
    !Blank(v.title)
  }

  /** What the two-argument constructor checks, in its order: the title first
      (null, then blank), then the description (null). */
  function CheckNew(title: Option<string>, description: Option<string>): (r: Outcome)
    ensures r.Pass? <==> title.Some? && !Blank(title.value) && description.Some?
    ensures r.Fail? ==> (r.error == ArgumentBlank <==> title.Some? && Blank(title.value))
    ensures r.Fail? ==> r.error == ArgumentNull || r.error == ArgumentBlank
  {
    var t := CheckNotBlank(title);
    if t.Fail? then t else CheckNotNull(description)
  }

  class SoundBoard {
    var title: string
    var description: string

    /** The board's content. */
    function Value(): BoardValue
      reads this
    {
      BoardValue(title, description)
    }

    /** The parameterless constructor: both fields start empty, so such a board
        is not `Titled` until its Title setter has run. */
    constructor ()
      ensures title == [] && description == []
    {
      title := [];
      description := [];
    }

    /** The two-argument constructor: rejects a null or blank title and a null
        description; an empty description is accepted. */
    static method New(title: Option<string>, description: Option<string>) returns (r: Result<SoundBoard>)
      ensures r.Success? <==> CheckNew(title, description).Pass?
      ensures r.Failure? ==> r.error == CheckNew(title, description).error
      ensures r.Success? ==> fresh(r.value) && r.value.Value() == BoardValue(title.value, description.value)
    {
      var check := CheckNew(title, description);
      if check.Fail? {
        return Failure(check.error);
      }
      var b := new SoundBoard();
      b.title := title.value;
      b.description := description.value;
      return Success(b);
    }

    /** The copy constructor: rejects null, otherwise copies both fields as they
        are, without checking them. */
    static method Copy(other: SoundBoard?) returns (r: Result<SoundBoard>)
      ensures r.Failure? <==> other == null
      ensures r.Failure? ==> r.error == ArgumentNull
      ensures r.Success? ==> fresh(r.value) && r.value.Value() == other.Value()
    {
      if other == null {
        return Failure(ArgumentNull);
      }
      var b := new SoundBoard();
      b.title := other.title;
      b.description := other.description;
      return Success(b);
    }

    /** The Title setter: a null or blank value is rejected and leaves the title
        as it was. */
    method SetTitle(value: Option<string>) returns (r: Outcome)
      modifies this
      ensures r.Pass? <==> value.Some? && !Blank(value.value)
      ensures r.Fail? ==> r == CheckNotBlank(value)
      ensures title == (if r.Pass? then value.value else old(title))
      ensures description == old(description)
    {
      r := CheckNotBlank(value);
      if r.Pass? {
        title := value.value;
      }
    }

    /** The Description setter: null is rejected and leaves the description as
        it was; any string, the empty one included, is accepted. */
    method SetDescription(value: Option<string>) returns (r: Outcome)
      modifies this
      ensures r.Pass? <==> value.Some?
      ensures r.Fail? ==> r.error == ArgumentNull
      ensures description == (if r.Pass? then value.value else old(description))
      ensures title == old(title)
    {
      r := CheckNotNull(value);
      if r.Pass? {
        description := value.value;
      }
    }

    /** `Clone`: a call of the validating constructor on the board's own fields,
        so it fails on a board whose title is blank and otherwise returns a new
        object with the same content. */
    method Clone() returns (r: Result<SoundBoard>)
      ensures r.Success? <==> Titled(Value())
      ensures r.Failure? ==> r.error == ArgumentBlank
      ensures r.Success? ==> fresh(r.value) && r.value.Value() == Value()
    {
      r := New(Some(title), Some(description));
    }
  }

  /** A clone is independent of its original: retitling the original afterwards
      leaves the clone as it was. */
  method CloneThenRetitle(b: SoundBoard, newTitle: Option<string>) returns (copy: Result<SoundBoard>)
    modifies b
    ensures copy.Success? <==> Titled(old(b.Value()))
    ensures copy.Success? ==> copy.value != b && copy.value.Value() == old(b.Value())
    ensures b.title == (if newTitle.Some? && !Blank(newTitle.value) then newTitle.value else old(b.title))
  {
    copy := b.Clone();
    var _ := b.SetTitle(newTitle);
  }

  /** A board made by the parameterless constructor cannot be cloned, because
      Clone goes through the validating constructor; the copy constructor does
      copy it. */
  method CloneOfUntitledBoard() returns (clone: Result<SoundBoard>, copy: Result<SoundBoard>)
    ensures clone == Failure(ArgumentBlank)
    ensures copy.Success? && copy.value.Value() == BoardValue([], [])
  {
    var b := new SoundBoard();
    clone := b.Clone();
    copy := SoundBoard.Copy(b);
  }
}
