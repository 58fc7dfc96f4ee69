/**
 * A player's document, and the update one save of it sends (PlayerRecord.cs, lines 43-57 and 140-253): which fields
 * changed, which were given a default on load, and what was pushed to its arrays.
 */
module PlayerRecords {
  import opened Options

  datatype Value =
    | Text(text: string)
    | Number(number: int)
    | Flag(flag: bool)
    | Date(ms: int)
    | List(items: seq<Value>)
    | Document(fields: seq<(string, Value)>)

  type Doc = map<string, Value>

  /** What the schema computes for a document: its tokens, its ids, the time. */
  datatype Made = Made(token: Value, account: Value, profileId: Value, publicId: Value, now: int)

  /** The schema's defaults, in its order: who the player is, what they play with, and the device they play on. */
  function Defaults(made: Made): seq<(string, Value)> {
    Names(made) + Looks() + Devices() + Seen(made)
  }

  function Names(made: Made): seq<(string, Value)> {
    [("name", Text("")), ("hydraUsername", Text("")), ("ip", Text("")), ("token", made.token),
      ("account", made.account),
     ("GameplayPreferences", Number(964)), ("profile_id", made.profileId), ("public_id", made.publicId)]
  }

  function Looks(): seq<(string, Value)> {
    [("profile_icon", Text("profile_icon_default")), ("blockedPlayers", List([])),
      ("character", Text("character_shaggy")),
     ("variant", Text("skin_shaggy_default")), ("party_key", Text("")), ("steamId", Text("")), ("epicId", Text(""))]
  }

  function Devices(): seq<(string, Value)> {
    [("hardwareId", Text("")), ("hardwareIdVersion", Text("")), ("hardwareIdQuality", Text("")),
      ("installId", Text("")),
     ("deviceIds", Document([])), ("deviceIdHistory", List([])), ("runtime", Text("")), ("virtualMachine", Flag(false))]
  }

  function Seen(made: Made): seq<(string, Value)> {
    [("lastSeenAt", Date(made.now)), ("ipSeenAt", Date(made.now)), ("provisional", Flag(false))]
  }

  const COMPUTED: set<string> := {"token", "account", "profile_id", "public_id", "lastSeenAt", "ipSeenAt"}

  /** What the schema computes is never an array: its arrays' defaults are all empty. */
  predicate NoLists(made: Made) {
    !made.token.List? && !made.account.List? && !made.profileId.List? && !made.publicId.List?
  }

  function Chosen(defaults: seq<(string, Value)>, computed: bool): seq<(string, Value)> {
    if defaults == [] then []
    else (if (defaults[0].0 in COMPUTED) == computed then [defaults[0]] else []) + Chosen(defaults[1..], computed)
  }

  /** A loaded document, with what was done to it since. */
  datatype Record = Record(
    doc: Doc,
    modified: seq<string>,
    defaulted: seq<string>,
    pushed: seq<(string, seq<Value>)>,
    arrayAssigned: bool)

  function Defaulted(r: Record, field: string, value: Value): Record {
    if field in r.doc then r else r.(doc := r.doc[field := value], defaulted := r.defaulted + [field])
  }

  function DefaultedAll(r: Record, defaults: seq<(string, Value)>): Record {
    if defaults == [] then r
    else Defaulted(DefaultedAll(r, defaults[..|defaults| - 1]), defaults[|defaults| - 1].0, defaults[|defaults| - 1].1)
  }

  /** The plain defaults first, then the computed ones. */
  function Loading(made: Made): seq<(string, Value)> {
    Chosen(Defaults(made), false) + Chosen(Defaults(made), true)
  }

  function Load(stored: Doc, made: Made): Record {
    DefaultedAll(Record(stored, [], [], [], false), Loading(made))
  }

  function Without(xs: seq<string>, x: string): (r: seq<string>)
    ensures forall y :: y in r <==> y in xs && y != x
  {
    if xs == [] then [] else (if xs[0] == x then [] else [xs[0]]) + Without(xs[1..], x)
  }

  /** A value equal to the current one is not written, unless it is a date. */
  function Set(r: Record, field: string, value: Value): Record {
    if field in r.doc && r.doc[field] == value && !value.Date? then r
    else r.(doc := r.doc[field := value], defaulted := Without(r.defaulted, field),
            modified := if field in r.modified then r.modified else r.modified + [field])
  }

  function SetArray(r: Record, field: string, items: seq<Value>): Record {
    if field in r.doc && r.doc[field] == List(items) then r else Set(r, field, List(items)).(arrayAssigned := true)
  }

  function PushedOf(pushed: seq<(string, seq<Value>)>, field: string): seq<Value> {
    if pushed == [] then [] else if pushed[0].0 == field then pushed[0].1 else PushedOf(pushed[1..], field)
  }

  predicate PushesTo(pushed: seq<(string, seq<Value>)>, field: string) {
    pushed != [] && (pushed[0].0 == field || PushesTo(pushed[1..], field))
  }

  function PushAdded(pushed: seq<(string, seq<Value>)>, field: string, value: Value): seq<(string, seq<Value>)> {
    if pushed == [] then [(field, [value])]
    else if pushed[0].0 == field then [(field, pushed[0].1 + [value])] + pushed[1..]
    else [pushed[0]] + PushAdded(pushed[1..], field, value)
  }

  /** Refused where there is no array. */
  function Push(r: Record, field: string, value: Value): Option<Record> {
    if field !in r.doc || !r.doc[field].List? then None
    else Some(r.(doc := r.doc[field := List(r.doc[field].items + [value])], defaulted := Without(r.defaulted, field),
                 pushed := PushAdded(r.pushed, field, value)))
  }

  // ---- The update a save sends ----

  /**
   * $push, $set and $inc of the version, on the document with the record's id (and its loaded version, for an assigned
   * array).
   */
  datatype Update = Update(push: seq<(string, seq<Value>)>, assign: seq<(string, Value)>, inc: bool,
    version: Option<Value>)

  datatype Save = Nothing | Refused | Sends(update: Update)

  function Sets(doc: Doc, fields: seq<string>): seq<(string, Value)>
    requires forall f | f in fields :: f in doc
  {
    if fields == [] then [] else [(fields[0], doc[fields[0]])] + Sets(doc, fields[1..])
  }

  function SaveOf(r: Record): Save
    requires forall f | f in r.modified || f in r.defaulted :: f in r.doc
  {
    if r.modified == [] && r.defaulted == [] && r.pushed == [] then Nothing
    else if r.pushed != [] && r.modified != [] then Refused
    else Sends(Update(r.pushed, Sets(r.doc, r.modified + r.defaulted), r.pushed != [] || r.arrayAssigned,
                      if r.arrayAssigned && "__v" in r.doc then Some(r.doc["__v"]) else None))
  }

  /** Everything a save sent is cleared; the loaded version is not moved on. */
  function Saved(r: Record): Record {
    r.(modified := [], defaulted := [], pushed := [], arrayAssigned := false)
  }

  // ---- What the database does with it ----

  predicate Matches(stored: Doc, update: Update) {
    update.version.Some? ==> "__v" in stored && stored["__v"] == update.version.value
  }

  function PushOne(stored: Doc, field: string, each: seq<Value>): Doc {
    if field !in stored then stored[field := List(each)]
    else if stored[field].List? then stored[field := List(stored[field].items + each)]
    else stored
  }

  function PushAll(stored: Doc, push: seq<(string, seq<Value>)>): Doc
    decreases |push|
  {
    if push == [] then stored else PushAll(PushOne(stored, push[0].0, push[0].1), push[1..])
  }

  function SetAll(stored: Doc, sets: seq<(string, Value)>): Doc
    decreases |sets|
  {
    if sets == [] then stored else SetAll(stored[sets[0].0 := sets[0].1], sets[1..])
  }

  function Incremented(stored: Doc): Doc {
    stored["__v" := Number(if "__v" in stored && stored["__v"].Number? then stored["__v"].number + 1 else 1)]
  }

  /** The update applied to a stored document, which it must match. */
  function Applied(stored: Doc, update: Update): Doc {
    if !Matches(stored, update) then stored
    else
      var changed := SetAll(PushAll(stored, update.push), update.assign);
      if update.inc then Incremented(changed) else changed
  }

  // ---- What the record keeps track of ----

  ghost predicate OncePushed(pushed: seq<(string, seq<Value>)>) {
    forall i, j | 0 <= i < j < |pushed| :: pushed[i].0 != pushed[j].0
  }

  /** A pushed field holds what was stored there, then what was pushed. */
  ghost predicate PushTracked(stored: Doc, r: Record, field: string) {
    && field in r.doc && r.doc[field].List?
    && (field in stored ==>
      stored[field].List? && r.doc[field] == List(stored[field].items + PushedOf(r.pushed, field)))
    && (field !in stored ==> r.doc[field] == List(PushedOf(r.pushed, field)))
  }

  ghost predicate FieldTracked(stored: Doc, r: Record, field: string) {
    if field in r.modified then field in r.doc
    else if field in r.defaulted then field in r.doc && field !in stored
      && (r.doc[field].List? ==> r.doc[field] == List([]))
    else if PushesTo(r.pushed, field) then PushTracked(stored, r, field)
    else (field in r.doc <==> field in stored) && (field in r.doc ==> r.doc[field] == stored[field])
  }

  /** Every field is as stored, or a save says how it differs; the id and the version are as stored. */
  ghost predicate Tracks(stored: Doc, r: Record) {
    && (forall field :: FieldTracked(stored, r, field))
    && (forall field | field in r.defaulted :: field !in r.modified && !PushesTo(r.pushed, field) && field !in stored)
    && OncePushed(r.pushed)
    && (forall field | field in {"_id", "__v"} ::
      field !in r.modified && field !in r.defaulted && !PushesTo(r.pushed, field))
    && (r.arrayAssigned ==> r.modified != [])
  }

  datatype Op =
    | SetOp(field: string, value: Value)
    | SetArrayOp(field: string, items: seq<Value>)
    | PushOp(field: string, value: Value)

  /** A call on a record; a push refused leaves it as it was. */
  function Done(r: Record, op: Op): Record {
    match op
    case SetOp(field, value) => Set(r, field, value)
    case SetArrayOp(field, items) => SetArray(r, field, items)
    case PushOp(field, value) => var pushed := Push(r, field, value); if pushed.Some? then pushed.value else r
  }

  function DoneAll(r: Record, ops: seq<Op>): Record {
    if ops == [] then r else Done(DoneAll(r, ops[..|ops| - 1]), ops[|ops| - 1])
  }

  /** The id and the version are the database's own: no caller assigns them. */
  ghost predicate Allowed(ops: seq<Op>) {
    forall op | op in ops :: op.field !in {"_id", "__v"}
  }

  // ---- Loading ----

  ghost predicate PlainDefaults(defaults: seq<(string, Value)>) {
    forall d | d in defaults :: d.0 !in {"_id", "__v"} && (d.1.List? ==> d.1 == List([]))
  }

  lemma {:induction false} ChosenPlain(defaults: seq<(string, Value)>, computed: bool)
    requires PlainDefaults(defaults)
    ensures PlainDefaults(Chosen(defaults, computed))
  {
    if defaults != [] {
      assert defaults[0] in defaults && forall d | d in defaults[1..] :: d in defaults;
      ChosenPlain(defaults[1..], computed);
    }
  }

  lemma SchemaPlain(made: Made)
    requires NoLists(made)
    ensures PlainDefaults(Defaults(made))
  {
    hide Names, Looks, Devices, Seen;
    NamesPlain(made);
    LooksPlain();
    DevicesPlain();
    SeenPlain(made);
  }

  lemma NamesPlain(made: Made)
    requires NoLists(made)
    ensures PlainDefaults(Names(made))
  {
  }

  lemma LooksPlain()
    ensures PlainDefaults(Looks())
  {
  }

  lemma DevicesPlain()
    ensures PlainDefaults(Devices())
  {
  }

  lemma SeenPlain(made: Made)
    ensures PlainDefaults(Seen(made))
  {
  }

  lemma {:induction false} DefaultedTracks(stored: Doc, defaults: seq<(string, Value)>)
    requires PlainDefaults(defaults)
    ensures var r := DefaultedAll(Record(stored, [], [], [], false), defaults);
      Tracks(stored, r) && r.modified == [] && r.pushed == []
  {
    hide Tracks;
    if defaults == [] {
      UntouchedTracks(stored);
    } else {
      assert forall d | d in defaults[..|defaults| - 1] :: d in defaults;
      DefaultedTracks(stored, defaults[..|defaults| - 1]);
      assert defaults[|defaults| - 1] in defaults;
      DefaultTracks(stored, DefaultedAll(Record(stored, [], [], [], false), defaults[..|defaults| - 1]),
        defaults[|defaults| - 1]);
    }
  }

  lemma UntouchedTracks(stored: Doc)
    ensures Tracks(stored, Record(stored, [], [], [], false))
  {
    forall field ensures FieldTracked(stored, Record(stored, [], [], [], false), field) {}
  }

  lemma DefaultTracks(stored: Doc, m: Record, d: (string, Value))
    requires Tracks(stored, m) && m.modified == [] && m.pushed == []
    requires d.0 !in {"_id", "__v"} && (d.1.List? ==> d.1 == List([]))
    ensures var r := Defaulted(m, d.0, d.1); Tracks(stored, r) && r.modified == [] && r.pushed == []
  {
    assert FieldTracked(stored, m, d.0);
    var r := Defaulted(m, d.0, d.1);
    forall field ensures FieldTracked(stored, r, field) { assert FieldTracked(stored, m, field); }
  }

  lemma {:induction false} ChosenAll(defaults: seq<(string, Value)>, computed: bool, d: (string, Value))
    ensures d in Chosen(defaults, computed) <==> d in defaults && (d.0 in COMPUTED) == computed
  {
    if defaults != [] { ChosenAll(defaults[1..], computed, d); }
  }

  /** A default given is one of them, for a field that was missing; and no field is missing any more. */
  ghost predicate GivenFrom(stored: Doc, r: Record, defaults: seq<(string, Value)>) {
    && (forall d | d in defaults :: d.0 in r.doc && (d.0 in r.defaulted <==> d.0 !in stored))
    && (forall field | field in r.defaulted :: field !in stored && field in r.doc && (field, r.doc[field]) in defaults)
    && (forall field | field in stored :: field in r.doc && r.doc[field] == stored[field])
  }

  lemma {:induction false} DefaultsGiven(stored: Doc, defaults: seq<(string, Value)>)
    ensures var r := DefaultedAll(Record(stored, [], [], [], false), defaults);
      && GivenFrom(stored, r, defaults) && forall field | field in r.doc :: field in stored || field in r.defaulted
  {
    if defaults != [] {
      DefaultsGiven(stored, defaults[..|defaults| - 1]);
    }
  }

  /**
   * What a load adds is exactly what the schema has and the document has not, each marked as given; nothing else
   * changes.
   */
  lemma LoadTracks(stored: Doc, made: Made)
    requires NoLists(made)
    ensures Tracks(stored, Load(stored, made))
    ensures GivenFrom(stored, Load(stored, made), Defaults(made))
  {
    hide Defaults, Tracks;
    SchemaPlain(made);
    ChosenPlain(Defaults(made), false);
    ChosenPlain(Defaults(made), true);
    assert PlainDefaults(Loading(made));
    DefaultedTracks(stored, Loading(made));
    DefaultsGiven(stored, Loading(made));
    forall d ensures d in Loading(made) <==> d in Defaults(made) {
      ChosenAll(Defaults(made), false, d);
      ChosenAll(Defaults(made), true, d);
    }
  }

  // ---- Each call ----

  lemma SetTracks(stored: Doc, r: Record, field: string, value: Value)
    requires Tracks(stored, r) && field !in {"_id", "__v"}
    ensures Tracks(stored, Set(r, field, value))
  {
    var m := Set(r, field, value);
    forall f ensures FieldTracked(stored, m, f) { assert FieldTracked(stored, r, f); }
  }

  lemma {:induction false} PushAddedIs(pushed: seq<(string, seq<Value>)>, field: string, value: Value)
    requires OncePushed(pushed)
    ensures var more := PushAdded(pushed, field, value);
      && OncePushed(more)
      && PushedOf(more, field) == PushedOf(pushed, field) + [value]
      && (forall f :: PushesTo(more, f) <==> f == field || PushesTo(pushed, f))
      && (forall f | f != field :: PushedOf(more, f) == PushedOf(pushed, f))
      && (!PushesTo(pushed, field) ==> PushedOf(pushed, field) == [])
  {
    if pushed != [] {
      PushAddedIs(pushed[1..], field, value);
      if pushed[0].0 == field {
        OnceHead(pushed);
        var more := PushAdded(pushed, field, value);
        assert more[1..] == pushed[1..];
      } else {
        var more := PushAdded(pushed, field, value);
        assert more[1..] == PushAdded(pushed[1..], field, value);
        OnceHead(pushed);
        OnceTail(more, pushed[0], PushAdded(pushed[1..], field, value));
      }
    }
  }

  lemma {:induction false} NamedIn(pushed: seq<(string, seq<Value>)>, field: string)
    ensures PushesTo(pushed, field) <==> exists i :: 0 <= i < |pushed| && pushed[i].0 == field
  {
    if pushed != [] {
      NamedIn(pushed[1..], field);
      if i :| 0 <= i < |pushed| && pushed[i].0 == field { assert i == 0 || pushed[1..][i - 1].0 == field; }
      if j :| 0 <= j < |pushed[1..]| && pushed[1..][j].0 == field { assert pushed[j + 1].0 == field; }
    }
  }

  lemma OnceHead(pushed: seq<(string, seq<Value>)>)
    requires OncePushed(pushed) && pushed != []
    ensures OncePushed(pushed[1..]) && !PushesTo(pushed[1..], pushed[0].0)
  {
    NamedIn(pushed[1..], pushed[0].0);
  }

  lemma OnceTail(more: seq<(string, seq<Value>)>, head: (string, seq<Value>), tail: seq<(string, seq<Value>)>)
    requires more == [head] + tail && OncePushed(tail) && !PushesTo(tail, head.0)
    ensures OncePushed(more)
  {
    NamedIn(tail, head.0);
  }

  lemma PushTracks(stored: Doc, r: Record, field: string, value: Value)
    requires Tracks(stored, r) && field !in {"_id", "__v"}
    ensures Tracks(stored, Done(r, PushOp(field, value)))
  {
    var pushed := Push(r, field, value);
    if pushed.Some? {
      var m := pushed.value;
      PushAddedIs(r.pushed, field, value);
      forall f ensures FieldTracked(stored, m, f) {
        assert FieldTracked(stored, r, f);
      }
    }
  }

  lemma {:induction false} CallsTrack(stored: Doc, r: Record, ops: seq<Op>)
    requires Tracks(stored, r) && Allowed(ops)
    ensures Tracks(stored, DoneAll(r, ops))
  {
    hide Tracks, Set, Push;
    if ops != [] {
      var init, op := ops[..|ops| - 1], ops[|ops| - 1];
      assert op in ops && forall o | o in init :: o in ops;
      CallsTrack(stored, r, init);
      var m := DoneAll(r, init);
      match op
      case SetOp(field, value) => SetTracks(stored, m, field, value);
      case SetArrayOp(field, items) =>
        SetTracks(stored, m, field, List(items));
        Assigned(stored, m, field, items);
      case PushOp(field, value) => PushTracks(stored, m, field, value);
    }
  }

  lemma Assigned(stored: Doc, r: Record, field: string, items: seq<Value>)
    requires Tracks(stored, Set(r, field, List(items))) && Tracks(stored, r)
    ensures Tracks(stored, SetArray(r, field, items))
  {
    var m := SetArray(r, field, items);
    forall f ensures FieldTracked(stored, m, f) {
      assert FieldTracked(stored, if m == r then r else Set(r, field, List(items)), f);
    }
  }

  // ---- What one save does ----

  /** The same fields with the same values, but for the version. */
  ghost predicate SameButVersion(a: Doc, b: Doc) {
    forall field | field != "__v" :: (field in a <==> field in b) && (field in a ==> a[field] == b[field])
  }

  lemma {:induction false} SetAllIs(stored: Doc, doc: Doc, fields: seq<string>, field: string)
    requires forall f | f in fields :: f in doc
    ensures var r := SetAll(stored, Sets(doc, fields));
      if field in fields then field in r && r[field] == doc[field]
      else (field in r <==> field in stored) && (field in r ==> r[field] == stored[field])
    decreases |fields|
  {
    if fields != [] {
      SetAllIs(stored[fields[0] := doc[fields[0]]], doc, fields[1..], field);
    }
  }

  lemma {:induction false} PushAllIs(stored: Doc, push: seq<(string, seq<Value>)>, field: string)
    requires OncePushed(push)
    ensures var r := PushAll(stored, push);
      if PushesTo(push, field)
      then field in r && r[field] == PushOne(stored, field, PushedOf(push, field))[field]
      else (field in r <==> field in stored) && (field in r ==> r[field] == stored[field])
    decreases |push|
  {
    if push != [] {
      OnceHead(push);
      PushAllIs(PushOne(stored, push[0].0, push[0].1), push[1..], field);
    }
  }

  lemma ChangedIs(stored: Doc, r: Record, field: string)
    requires Tracks(stored, r) && (r.pushed == [] || r.modified == [])
    requires forall f | f in r.modified || f in r.defaulted :: f in r.doc
    ensures var changed := SetAll(PushAll(stored, r.pushed), Sets(r.doc, r.modified + r.defaulted));
      (field in changed <==> field in r.doc) && (field in changed ==> changed[field] == r.doc[field])
  {
    assert FieldTracked(stored, r, field);
    PushAllIs(stored, r.pushed, field);
    SetAllIs(PushAll(stored, r.pushed), r.doc, r.modified + r.defaulted, field);
  }

  lemma Writable(stored: Doc, r: Record)
    requires Tracks(stored, r)
    ensures forall f | f in r.modified || f in r.defaulted :: f in r.doc
  {
    forall f | f in r.modified || f in r.defaulted ensures f in r.doc { assert FieldTracked(stored, r, f); }
  }

  /** The stored document was not changed since it was loaded: the filter finds it. */
  lemma FilterFinds(stored: Doc, r: Record, update: Update)
    requires Tracks(stored, r)
      && (forall f | f in r.modified || f in r.defaulted :: f in r.doc) && SaveOf(r) == Sends(update)
    ensures Matches(stored, update)
  {
    assert FieldTracked(stored, r, "__v");
  }

  /**
   * Whatever was set, assigned and pushed after a load: the update one save sends turns the stored document into the
   * one in memory, apart from the version, which it raises for a push or an assigned array; a save that sends nothing
   * has nothing to.
   */
  lemma SaveReproduces(stored: Doc, made: Made, ops: seq<Op>)
    requires NoLists(made) && Allowed(ops)
    ensures var r := DoneAll(Load(stored, made), ops);
      && (forall f | f in r.modified || f in r.defaulted :: f in r.doc)
      && match SaveOf(r)
         case Nothing => r.doc == stored
         case Refused => r.pushed != [] && r.modified != []
         case Sends(update) =>
           && SameButVersion(Applied(stored, update), r.doc)
           && (if update.inc then Applied(stored, update) == Incremented(Applied(stored, update.(inc := false)))
               else ("__v" in Applied(stored, update) <==> "__v" in stored)
                    && ("__v" in stored ==> Applied(stored, update)["__v"] == stored["__v"]))
           && (update.inc <==> r.pushed != [] || r.arrayAssigned)
  {
    hide Tracks, Load, DoneAll;
    LoadTracks(stored, made);
    CallsTrack(stored, Load(stored, made), ops);
    SaveKeeps(stored, DoneAll(Load(stored, made), ops));
  }

  lemma SaveKeeps(stored: Doc, r: Record)
    requires Tracks(stored, r)
    ensures forall f | f in r.modified || f in r.defaulted :: f in r.doc
    ensures match SaveOf(r)
      case Nothing => r.doc == stored
      case Refused => r.pushed != [] && r.modified != []
      case Sends(update) =>
        && SameButVersion(Applied(stored, update), r.doc)
        && (if update.inc then Applied(stored, update) == Incremented(Applied(stored, update.(inc := false)))
            else ("__v" in Applied(stored, update) <==> "__v" in stored)
                 && ("__v" in stored ==> Applied(stored, update)["__v"] == stored["__v"]))
        && (update.inc <==> r.pushed != [] || r.arrayAssigned)
  {
    hide SetAll, PushAll, Sets;
    Writable(stored, r);
    match SaveOf(r)
    case Nothing => NothingChanged(stored, r);
    case Refused =>
    case Sends(update) =>
      FilterFinds(stored, r, update);
      forall field ensures var changed := SetAll(PushAll(stored, r.pushed), Sets(r.doc, r.modified + r.defaulted));
        (field in changed <==> field in r.doc) && (field in changed ==> changed[field] == r.doc[field])
      {
        ChangedIs(stored, r, field);
      }
      assert FieldTracked(stored, r, "__v");
  }

  lemma NothingChanged(stored: Doc, r: Record)
    requires Tracks(stored, r) && r.modified == [] && r.defaulted == [] && r.pushed == []
    ensures r.doc == stored
  {
    forall field ensures (field in r.doc <==> field in stored) && (field in r.doc ==> r.doc[field] == stored[field]) {
      assert FieldTracked(stored, r, field);
    }
  }

  /** A call that changes nothing: a field assigned the value it has, which is no date. */
  ghost predicate Idle(doc: Doc, op: Op) {
    match op
    case SetOp(field, value) => field in doc && doc[field] == value && !value.Date?
    case SetArrayOp(field, items) => field in doc && doc[field] == List(items)
    case PushOp(field, _) => field !in doc || !doc[field].List?
  }

  /** With every field there and nothing changed, a save sends nothing. */
  lemma {:induction false} QuietSave(stored: Doc, made: Made, ops: seq<Op>)
    requires forall d | d in Loading(made) :: d.0 in stored
    requires forall op | op in ops :: Idle(stored, op)
    ensures DoneAll(Load(stored, made), ops) == Record(stored, [], [], [], false)
    ensures SaveOf(DoneAll(Load(stored, made), ops)).Nothing?
  {
    hide Loading;
    NothingMissing(stored, Loading(made));
    if ops != [] {
      assert ops[|ops| - 1] in ops && forall op | op in ops[..|ops| - 1] :: op in ops;
      QuietSave(stored, made, ops[..|ops| - 1]);
    }
  }

  lemma {:induction false} NothingMissing(stored: Doc, defaults: seq<(string, Value)>)
    requires forall d | d in defaults :: d.0 in stored
    ensures DefaultedAll(Record(stored, [], [], [], false), defaults) == Record(stored, [], [], [], false)
  {
    if defaults != [] {
      assert defaults[|defaults| - 1] in defaults && forall d | d in defaults[..|defaults| - 1] :: d in defaults;
      NothingMissing(stored, defaults[..|defaults| - 1]);
    }
  }

  // ---- Against others' saves ----

  /**
   * What others stored meanwhile in fields the update does not name stays; what it pushes comes after what they pushed.
   */
  lemma OthersKept(other: Doc, r: Record, update: Update, field: string)
    requires (forall f | f in r.modified || f in r.defaulted :: f in r.doc) && SaveOf(r) == Sends(update)
      && OncePushed(r.pushed)
    requires Matches(other, update) && field != "__v" && field !in r.modified && field !in r.defaulted
    ensures var after := Applied(other, update);
      if !PushesTo(r.pushed, field)
      then (field in after <==> field in other) && (field in after ==> after[field] == other[field])
      else field in after && (field in other && other[field].List? ==>
                                after[field] == List(other[field].items + PushedOf(r.pushed, field)))
  {
    PushAllIs(other, r.pushed, field);
    SetAllIs(PushAll(other, r.pushed), r.doc, r.modified + r.defaulted, field);
  }

  /**
   * A second save on the same record, of an assigned array, finds the document exactly when the first did not raise the
   * version: the record's own version is not moved on.
   */
  lemma SecondArraySave(stored: Doc, r: Record, first: Update, ops: seq<Op>, second: Update)
    requires Tracks(stored, r)
      && (forall f | f in r.modified || f in r.defaulted :: f in r.doc) && SaveOf(r) == Sends(first)
    requires "__v" in stored && stored["__v"].Number? && Allowed(ops)
    requires var r2 := DoneAll(Saved(r), ops);
      r2.arrayAssigned
        && (forall f | f in r2.modified || f in r2.defaulted :: f in r2.doc) && SaveOf(r2) == Sends(second)
    ensures Matches(Applied(stored, first), second) <==> !first.inc
  {
    hide Tracks;
    VersionSame(stored, r);
    VersionKept(Saved(r), ops);
    FilterFinds(stored, r, first);
    ChangedIs(stored, r, "__v");
  }

  lemma VersionSame(stored: Doc, r: Record)
    requires Tracks(stored, r) && "__v" in stored
    ensures "__v" in r.doc && r.doc["__v"] == stored["__v"]
  {
    assert FieldTracked(stored, r, "__v");
  }

  /** No call touches the version. */
  lemma {:induction false} VersionKept(r: Record, ops: seq<Op>)
    requires Allowed(ops) && "__v" in r.doc
    ensures "__v" in DoneAll(r, ops).doc && DoneAll(r, ops).doc["__v"] == r.doc["__v"]
  {
    if ops != [] {
      assert ops[|ops| - 1] in ops && forall op | op in ops[..|ops| - 1] :: op in ops;
      VersionKept(r, ops[..|ops| - 1]);
    }
  }

  // ---- A second save that finds no document ----

  const BLOCKING: Doc := map["_id" := Text("p"), "__v" := Number(0), "blockedPlayers" := List([Text("a")])]
  const UNBLOCK := [SetArrayOp("blockedPlayers", [])]
  const BLOCK_ANOTHER := [SetArrayOp("blockedPlayers", [Text("b")])]

  /** An array assigned that is not the one there: the next save sends it, on the document with the record's version. */
  lemma ArrayAssigned(r: Record, items: seq<Value>)
    requires "blockedPlayers" in r.doc && r.doc["blockedPlayers"] != List(items) && "__v" in r.doc && r.pushed == []
    requires forall f | f in r.modified || f in r.defaulted :: f in r.doc
    ensures var r2 := DoneAll(r, [SetArrayOp("blockedPlayers", items)]);
      && r2.arrayAssigned && (forall f | f in r2.modified || f in r2.defaulted :: f in r2.doc)
      && "blockedPlayers" in r2.doc && r2.doc["blockedPlayers"] == List(items) && "__v" in r2.doc
      && SaveOf(r2).Sends? && SaveOf(r2).update.inc
  {
    var op := SetArrayOp("blockedPlayers", items);
    assert [op][..0] == [];
    assert DoneAll(r, []) == r;
    assert DoneAll(r, [op]) == SetArray(r, "blockedPlayers", items);
  }

  /** Two saves of one record, each of its assigned array: the second finds no document, and what it sends is lost. */
  lemma SecondSaveLost(made: Made)
    requires NoLists(made)
    ensures var r1 := DoneAll(Load(BLOCKING, made), UNBLOCK);
      && (forall f | f in r1.modified || f in r1.defaulted :: f in r1.doc) && SaveOf(r1).Sends?
      && var r2 := DoneAll(Saved(r1), BLOCK_ANOTHER);
         && (forall f | f in r2.modified || f in r2.defaulted :: f in r2.doc) && SaveOf(r2).Sends?
         && !Matches(Applied(BLOCKING, SaveOf(r1).update), SaveOf(r2).update)
         && "blockedPlayers" in r2.doc && r2.doc["blockedPlayers"] == List([Text("b")])
  {
    hide Load, Tracks, DoneAll, Defaults, SaveOf, Applied;
    LoadTracks(BLOCKING, made);
    var r0 := Load(BLOCKING, made);
    UntouchedLoad(BLOCKING, made);
    Writable(BLOCKING, r0);
    ArrayAssigned(r0, []);
    var r1 := DoneAll(r0, UNBLOCK);
    CallsTrack(BLOCKING, r0, UNBLOCK);
    ArrayAssigned(Saved(r1), [Text("b")]);
    SecondArraySave(BLOCKING, r1, SaveOf(r1).update, BLOCK_ANOTHER, SaveOf(DoneAll(Saved(r1), BLOCK_ANOTHER)).update);
  }

  lemma UntouchedLoad(stored: Doc, made: Made)
    requires NoLists(made)
    ensures Load(stored, made).modified == [] && Load(stored, made).pushed == []
  {
    hide Defaults, Tracks;
    SchemaPlain(made);
    ChosenPlain(Defaults(made), false);
    ChosenPlain(Defaults(made), true);
    assert PlainDefaults(Loading(made));
    DefaultedTracks(stored, Loading(made));
  }
}
