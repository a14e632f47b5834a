/** The recovery journal as a file (strategy/kwin/state.rs). */
module StateFile {
  import opened Outcomes
  import opened Proto
  import opened KScreen
  import opened World
  import opened Effects
  import Text

  const CURRENT_SCHEMA_VERSION: nat := 1

  /** What a file holds: a record of some schema, or a text that is not a record. */
  datatype Content = Record(schema: nat, state: ConnectState) | Torn

  /** A file on disk; a link, a directory or a file that others can write to is not acceptable. */
  datatype File = File(content: Content, acceptable: bool)

  /** The identifiers in a record are what their types allow. */
  predicate HasValidIds(s: ConnectState) { IsCardId(s.card) && IsConnectorId(s.port) }

  /** What loading makes of what is at the path. */
  function Loaded(file: Option<File>): Result<Option<ConnectState>, Error> {
    match file
    case None => Ok(None)
    case Some(File(_, false)) => Err(Io)
    case Some(File(Torn, true)) => Err(Io)
    case Some(File(Record(schema, state), true)) =>
      if HasValidIds(state) && schema == CURRENT_SCHEMA_VERSION && forall o | o in state.layout :: IsConnectorId(o.name)
      then Ok(Some(state))
      else Err(Io)
  }

  function Saved(s: ConnectState): File { File(Record(CURRENT_SCHEMA_VERSION, s), true) }

  /** A saved record is loaded back exactly when every name in it is a connector's. */
  lemma SavedIsLoadedIff(s: ConnectState)
    ensures Loaded(Some(Saved(s))) == Ok(Some(s)) <==>
            HasValidIds(s) && forall o | o in s.layout :: IsConnectorId(o.name)
    ensures Loaded(Some(Saved(s))).Ok? ==> Loaded(Some(Saved(s))) == Ok(Some(s))
  {
  }

  /**
   * What `load` answers: nothing exactly if there is no file, and this record exactly if the file is acceptable, holds
   * it whole and of schema 1, and every name in it is valid; so anything else is an error.
   */
  lemma LoadedIff(file: Option<File>, s: ConnectState)
    ensures Loaded(file) == Ok(None) <==> file.None?
    ensures Loaded(file) == Ok(Some(s)) <==>
              && file.Some? && file.value.acceptable && file.value.content == Record(1, s)
              && IsCardId(s.card) && IsConnectorId(s.port)
              && forall i | 0 <= i < |s.layout| :: IsConnectorId(s.layout[i].name)
  {
    assert forall i | 0 <= i < |s.layout| :: s.layout[i] in s.layout;
  }

  lemma {:induction false} GatheredNamesAreValid(lines: seq<Line>, n: nat)
    requires n <= |lines|
    ensures forall o | o in Gather(lines, n).result :: IsConnectorId(o.name)
  {
    if n > 0 {
      GatheredNamesAreValid(lines, n - 1);
    }
  }

  /** So a record whose layout was read from a listing, whatever its text, is always loaded back. */
  lemma SnapshotIsLoadedBack(s: ConnectState, text: string)
    requires HasValidIds(s) && s.layout == OutputsOf(text)
    ensures Loaded(Some(Saved(s))) == Ok(Some(s))
  {
    var lines := Classified(Text.Lines(text));
    GatheredNamesAreValid(lines, |lines|);
    SavedIsLoadedIff(s);
  }

  /** A step of a system call sequence: it is done, it fails, or the process dies before or after it. */
  datatype Step = Done | Fails | DiesBefore | DiesAfter {
    predicate IsDone() { Done? || DiesAfter? }
  }

  class Store {
    var journal: Option<File>
    var temporary: Option<File>

    constructor ()
      ensures journal.None? && temporary.None?
    {
      journal, temporary := None, None;
    }

    /** Opens the temporary file, truncating it, and writes the record as far as that goes. */
    method WriteTemporary(s: ConnectState) returns (r: Outcome<()>)
      modifies this`temporary
      ensures Succeeded(r) ==> temporary == Some(Saved(s))
    {
      var directory: Step, opening: Step, written: Step := *, *, *;
      if !directory.Done? {
        return if directory.Fails? then Lived(Err(Io)) else Died;
      }
      if opening.IsDone() {
        temporary := Some(File(Torn, true));
      }
      if !opening.Done? {
        return if opening.Fails? then Lived(Err(Io)) else Died;
      }
      if written.IsDone() {
        temporary := Some(Saved(s));
      }
      r := if written.Done? then Lived(Ok(())) else if written.Fails? then Lived(Err(Io)) else Died;
    }

    /**
     * `save`: however it ends and wherever the process dies, the journal is the old file or the whole
     * new one.  The new one is there although failure is reported only if the rename had been done and
     * the directory could not be synchronised.
     */
    method Save(s: ConnectState) returns (r: Outcome<()>, ghost renamed: bool)
      modifies this
      ensures journal == if renamed then Some(Saved(s)) else old(journal)
      ensures Succeeded(r) ==> renamed
      ensures !renamed ==> !Succeeded(r)
    {
      renamed := false;
      var written :- WriteTemporary(s);
      if written.Err? {
        return Lived(written), renamed;
      }
      var moved: Step, synchronised: Step := *, *;
      if moved.IsDone() {
        journal, temporary := temporary, None;
        renamed := true;
      }
      if !moved.Done? {
        return if moved.Fails? then Lived(Err(Io)) else Died, renamed;
      }
      r := if synchronised.Done? then Lived(Ok(())) else if synchronised.Fails? then Lived(Err(Io)) else Died;
    }

    /** `load`. */
    method Load() returns (r: Result<Option<ConnectState>, Error>)
      ensures r == Loaded(journal)
    {
      if journal.None? {
        return Ok(None);
      }
      var file := journal.value;
      if !file.acceptable {
        return Err(Io);
      }
      match file.content
      case Torn => r := Err(Io);
      case Record(schema, state) =>
        if !HasValidIds(state) || schema != CURRENT_SCHEMA_VERSION {
          return Err(Io);
        }
        if exists o | o in state.layout :: !IsConnectorId(o.name) {
          return Err(Io);
        }
        r := Ok(Some(state));
    }

    /** `delete`: a file that is not there counts as deleted. */
    method Delete() returns (r: Outcome<()>)
      modifies this`journal
      ensures journal == old(journal) || journal.None?
      ensures Succeeded(r) ==> journal.None?
      ensures old(journal).None? ==> journal.None?
    {
      var removed: Step := *;
      if removed.IsDone() {
        journal := None;
      }
      r := if removed.Done? then Lived(Ok(())) else if removed.Fails? then Lived(Err(Io)) else Died;
    }
  }
}
