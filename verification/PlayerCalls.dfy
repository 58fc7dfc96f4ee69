/**
 * What calls leave in a player's document (PlayerRecord.cs, lines 140-190), and what the next save sends of it, and the
 * one after (lines 196-253).
 */
module PlayerCalls {
  import opened Options
  import opened PlayerRecords

  // ---- One call ----

  /** Only the field changed, in memory. */
  ghost predicate OnlyField(r: Record, m: Record, field: string) {
    forall f | f != field :: (f in m.doc <==> f in r.doc) && (f in r.doc ==> m.doc[f] == r.doc[f])
  }

  /** The field holds the value; unless it held just that, the next save sends it. */
  lemma SetLeaves(r: Record, field: string, value: Value)
    ensures var m := Set(r, field, value);
      && field in m.doc && m.doc[field] == value && OnlyField(r, m, field) && m.pushed == r.pushed
      && (m == r || field in m.modified)
      && (value.Date? || field !in r.doc || r.doc[field] != value ==> field in m.modified)
      && (forall f | f != field :: (f in m.modified <==> f in r.modified) && (f in m.defaulted <==> f in r.defaulted))
  {
  }

  /** So for an array, which the next save sends only on the version the record was loaded at. */
  lemma SetArrayLeaves(r: Record, field: string, items: seq<Value>)
    ensures var m := SetArray(r, field, items);
      && field in m.doc && m.doc[field] == List(items) && OnlyField(r, m, field) && m.pushed == r.pushed
      && (field !in r.doc || r.doc[field] != List(items) ==> field in m.modified && m.arrayAssigned)
  {
  }

  /** The pushes that wait, with one more: last of its field's, and the others' as they were. */
  lemma {:induction false} PushedLast(pushed: seq<(string, seq<Value>)>, field: string, value: Value)
    ensures var more := PushAdded(pushed, field, value);
      && PushedOf(more, field) == PushedOf(pushed, field) + [value]
      && forall f | f != field :: PushedOf(more, f) == PushedOf(pushed, f)
    decreases |pushed|
  {
    if pushed != [] {
      PushedLast(pushed[1..], field, value);
      var more := PushAdded(pushed, field, value);
      if pushed[0].0 == field {
        assert more[1..] == pushed[1..];
      } else {
        assert more[1..] == PushAdded(pushed[1..], field, value);
      }
    }
  }

  /**
   * A push is taken exactly where there is an array: the field is its old list, then the value; nothing else changes;
   * and the value is last among what the next save pushes.
   */
  lemma PushLeaves(r: Record, field: string, value: Value)
    ensures var pushed := Push(r, field, value);
      && (pushed.Some? <==> field in r.doc && r.doc[field].List?)
      && (pushed.Some? ==>
            var m := pushed.value;
            && field in m.doc && m.doc[field] == List(r.doc[field].items + [value]) && OnlyField(r, m, field)
            && PushedOf(m.pushed, field) == PushedOf(r.pushed, field) + [value]
            && (forall f | f != field :: PushedOf(m.pushed, f) == PushedOf(r.pushed, f))
            && m.modified == r.modified && m.arrayAssigned == r.arrayAssigned)
  {
    PushedLast(r.pushed, field, value);
  }

  // ---- Any calls ----

  /** The last value a field was assigned, if it was. */
  function LastAssigned(ops: seq<Op>, field: string): Option<Value> {
    if ops == [] then None
    else
      match ops[|ops| - 1]
      case SetOp(f, value) => if f == field then Some(value) else LastAssigned(ops[..|ops| - 1], field)
      case SetArrayOp(f, items) => if f == field then Some(List(items)) else LastAssigned(ops[..|ops| - 1], field)
      case PushOp(_, _) => LastAssigned(ops[..|ops| - 1], field)
  }

  /** What was pushed to it since. */
  function PushedSince(ops: seq<Op>, field: string): seq<Value> {
    if ops == [] then []
    else
      match ops[|ops| - 1]
      case PushOp(f, value) => PushedSince(ops[..|ops| - 1], field) + if f == field then [value] else []
      case SetOp(f, _) => if f == field then [] else PushedSince(ops[..|ops| - 1], field)
      case SetArrayOp(f, _) => if f == field then [] else PushedSince(ops[..|ops| - 1], field)
  }

  /**
   * After any calls a field holds what it was last assigned, or what it held before them all, followed by what was
   * pushed to it since; a push to anything but an array is lost.
   */
  lemma {:induction false} FieldAfter(r: Record, ops: seq<Op>, field: string)
    ensures var m, given := DoneAll(r, ops), LastAssigned(ops, field);
      if given.None? && field !in r.doc then field !in m.doc
      else
        var base := if given.Some? then given.value else r.doc[field];
        && field in m.doc
        && m.doc[field] == if base.List? then List(base.items + PushedSince(ops, field)) else base
    decreases |ops|
  {
    hide Set, SetArray, Push, OnlyField;
    if ops == [] {
      if field in r.doc && r.doc[field].List? { assert r.doc[field].items + [] == r.doc[field].items; }
    } else {
      var init, last := ops[..|ops| - 1], ops[|ops| - 1];
      FieldAfter(r, init, field);
      OneMore(DoneAll(r, init), last, field);
    }
  }

  lemma OneMore(m: Record, op: Op, field: string)
    ensures var d := Done(m, op);
      if op.field != field then (field in d.doc <==> field in m.doc)
        && (field in m.doc ==> d.doc[field] == m.doc[field])
      else match op
        case SetOp(_, value) => field in d.doc && d.doc[field] == value
        case SetArrayOp(_, items) => field in d.doc && d.doc[field] == List(items)
        case PushOp(_, value) =>
          && (field in d.doc <==> field in m.doc)
          && (field in m.doc ==>
                d.doc[field] == if m.doc[field].List? then List(m.doc[field].items + [value]) else m.doc[field])
  {
    hide Set, SetArray, Push;
    match op
    case SetOp(f, value) => SetLeaves(m, f, value);
    case SetArrayOp(f, items) => SetArrayLeaves(m, f, items);
    case PushOp(f, value) => PushLeaves(m, f, value);
  }

  /** The pushes to a field that found an array. */
  function Taken(r: Record, ops: seq<Op>, field: string): seq<Value> {
    if ops == [] then []
    else
      var m, last := DoneAll(r, ops[..|ops| - 1]), ops[|ops| - 1];
      Taken(r, ops[..|ops| - 1], field)
      + if last.PushOp? && last.field == field && field in m.doc && m.doc[field].List? then [last.value] else []
  }

  /** A save pushes to each field what was pushed to it and taken, in order. */
  lemma {:induction false} PushesWait(r: Record, ops: seq<Op>, field: string)
    ensures PushedOf(DoneAll(r, ops).pushed, field) == PushedOf(r.pushed, field) + Taken(r, ops, field)
    decreases |ops|
  {
    hide Set, SetArray, Push, OnlyField;
    if ops == [] {
      assert PushedOf(r.pushed, field) + [] == PushedOf(r.pushed, field);
    } else {
      var init, last := ops[..|ops| - 1], ops[|ops| - 1];
      PushesWait(r, init, field);
      var m := DoneAll(r, init);
      match last
      case SetOp(f, value) => SetLeaves(m, f, value);
      case SetArrayOp(f, items) => SetArrayLeaves(m, f, items);
      case PushOp(f, value) => PushLeaves(m, f, value);
    }
  }

  // ---- The next save ----

  /** What a save sent is not sent again. */
  lemma SavedQuiet(r: Record)
    ensures SaveOf(Saved(r)) == Nothing && Saved(r).doc == r.doc
  {
  }

  lemma {:induction false} SameAfterSets(a: Doc, b: Doc, sets: seq<(string, Value)>)
    requires SameButVersion(a, b)
    ensures SameButVersion(SetAll(a, sets), SetAll(b, sets))
    decreases |sets|
  {
    if sets != [] { SameAfterSets(a[sets[0].0 := sets[0].1], b[sets[0].0 := sets[0].1], sets[1..]); }
  }

  lemma {:induction false} SameAfterPushes(a: Doc, b: Doc, push: seq<(string, seq<Value>)>)
    requires SameButVersion(a, b)
    ensures SameButVersion(PushAll(a, push), PushAll(b, push))
    decreases |push|
  {
    if push != [] { SameAfterPushes(PushOne(a, push[0].0, push[0].1), PushOne(b, push[0].0, push[0].1), push[1..]); }
  }

  lemma SameApplied(a: Doc, b: Doc, update: Update)
    requires SameButVersion(a, b) && Matches(a, update) && Matches(b, update)
    ensures SameButVersion(Applied(a, update), Applied(b, update))
  {
    SameAfterPushes(a, b, update.push);
    SameAfterSets(PushAll(a, update.push), PushAll(b, update.push), update.assign);
  }

  lemma OwnDocument(r: Record)
    requires r.modified == [] && r.defaulted == [] && r.pushed == [] && !r.arrayAssigned
    ensures Tracks(r.doc, r)
  {
    UntouchedTracks(r.doc);
  }

  /**
   * A second save on the same record: if it finds the document, its update turns what the first save left into what is
   * in memory, apart from the version; nothing of the first is sent twice.
   */
  lemma SecondSaveReproduces(stored: Doc, made: Made, ops: seq<Op>, more: seq<Op>)
    requires NoLists(made) && Allowed(ops) && Allowed(more)
    ensures var r := DoneAll(Load(stored, made), ops);
      && (forall f | f in r.modified || f in r.defaulted :: f in r.doc)
      && (SaveOf(r).Sends? ==>
            var after := Applied(stored, SaveOf(r).update);
            var r2 := DoneAll(Saved(r), more);
            && (forall f | f in r2.modified || f in r2.defaulted :: f in r2.doc)
            && (SaveOf(r2).Sends? && Matches(after, SaveOf(r2).update) ==>
                  SameButVersion(Applied(after, SaveOf(r2).update), r2.doc))
            && (SaveOf(r2).Nothing? ==> SameButVersion(after, r2.doc)))
  {
    hide Load, DoneAll, Tracks, Applied, SaveOf, SameButVersion, Matches;
    SaveReproduces(stored, made, ops);
    var r := DoneAll(Load(stored, made), ops);
    if SaveOf(r).Sends? {
      var after, r2 := Applied(stored, SaveOf(r).update), DoneAll(Saved(r), more);
      OwnDocument(Saved(r));
      CallsTrack(r.doc, Saved(r), more);
      SaveKeeps(r.doc, r2);
      match SaveOf(r2)
      case Nothing =>
      case Refused =>
      case Sends(update) =>
        FilterFinds(r.doc, r2, update);
        if Matches(after, update) {
          SameApplied(after, r.doc, update);
          SameTrans(Applied(after, update), Applied(r.doc, update), r2.doc);
        }
    }
  }

  lemma SameTrans(a: Doc, b: Doc, c: Doc)
    requires SameButVersion(a, b) && SameButVersion(b, c)
    ensures SameButVersion(a, c)
  {
  }
}
