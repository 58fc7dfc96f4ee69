/**
 * A player's document as the program keeps it (PlayerRecord.cs): changed in place, and its changes remembered for a
 * save.
 */
module PlayerRecordObject {
  import opened Options
  import opened P = PlayerRecords

  class PlayerRecord {
    var doc: Doc
    var modified: seq<string>
    var defaulted: seq<string>
    var pushed: seq<(string, seq<Value>)>
    var arrayAssigned: bool

    function Snapshot(): Record
      reads this
    {
      Record(doc, modified, defaulted, pushed, arrayAssigned)
    }

    /** A loaded document, given the defaults of the fields it lacks: the plain ones, then the computed. */
    constructor Load(stored: Doc, made: Made)
      ensures Snapshot() == P.Load(stored, made)
    {
      hide Loading;
      doc, modified, defaulted, pushed, arrayAssigned := stored, [], [], [], false;
      new;
      hide Loading;
      var defaults := Loading(made);
      for i := 0 to |defaults|
        invariant Snapshot() == DefaultedAll(Record(stored, [], [], [], false), defaults[..i])
      {
        assert defaults[..i + 1][..i] == defaults[..i];
        var (field, value) := defaults[i];
        if field !in doc {
          doc := doc[field := value];
          defaulted := defaulted + [field];
        }
      }
      assert defaults[..|defaults|] == defaults;
    }

    method Set(field: string, value: Value)
      modifies this
      ensures Snapshot() == P.Set(old(Snapshot()), field, value)
    {
      if field in doc && doc[field] == value && !value.Date? { return; }
      doc := doc[field := value];
      defaulted := Without(defaulted, field);
      if field !in modified { modified := modified + [field]; }
    }

    method SetArray(field: string, items: seq<Value>)
      modifies this
      ensures Snapshot() == P.SetArray(old(Snapshot()), field, items)
    {
      if field in doc && doc[field] == P.List(items) { return; }
      Set(field, P.List(items));
      arrayAssigned := true;
    }

    /** False where there is no array to push to: nothing is changed. */
    method Push(field: string, value: Value) returns (done: bool)
      modifies this
      ensures done == P.Push(old(Snapshot()), field, value).Some?
      ensures Snapshot() == Done(old(Snapshot()), PushOp(field, value))
    {
      if field !in doc || !doc[field].List? { return false; }
      doc := doc[field := P.List(doc[field].items + [value])];
      defaulted := Without(defaulted, field);
      pushed := PushAdded(pushed, field, value);
      done := true;
    }

    /** What a save sends; what it sent is cleared. A push beside a changed field is refused, and nothing is cleared. */
    method SaveAsync() returns (save: Save)
      requires forall f | f in modified || f in defaulted :: f in doc
      modifies this
      ensures save == SaveOf(old(Snapshot()))
      ensures Snapshot() == if save.Sends? then Saved(old(Snapshot())) else old(Snapshot())
    {
      if |modified| == 0 && |defaulted| == 0 && |pushed| == 0 { return Nothing; }
      if |pushed| > 0 && |modified| > 0 { return Refused; }
      var fields := modified + defaulted;
      var sets: seq<(string, Value)> := [];
      for i := 0 to |fields|
        invariant sets + Sets(doc, fields[i..]) == Sets(doc, fields)
        invariant doc == old(doc) && modified == old(modified) && defaulted == old(defaulted) && pushed == old(pushed)
        invariant arrayAssigned == old(arrayAssigned)
      {
        assert fields[i..] == [fields[i]] + fields[i + 1..];
        sets := sets + [(fields[i], doc[fields[i]])];
      }
      var inc := |pushed| > 0 || arrayAssigned;
      var version := if arrayAssigned && "__v" in doc then Some(doc["__v"]) else None;
      save := Sends(Update(pushed, sets, inc, version));
      modified, defaulted, pushed, arrayAssigned := [], [], [], false;
    }
  }
}
