/**
 * cjson's empty tables put back (CustomLobbyService.cs, lines 156-166 and 1294-1332). cjson writes an empty array as it
 * writes an empty object, {}; the repair restores an array under the keys that hold lists.
 */
module EmptyTables {
  /** A JSON document; an object's fields in order, each key once. */
  datatype Json =
    | Scalar(text: string)
    | Arr(items: seq<Json>)
    | Obj(fields: seq<Field>)

  datatype Field = Field(key: string, value: Json)

  const OBJECT_FIELDS: set<string> := {
    "Players", "ReadyPlayers", "PlayerGameplayPreferences", "PlayerAutoPartyPreferences", "Platforms", "LockedLoadouts",
    "Handicaps", "PlayerBuffs", "AllMultiplayParams", "Spectators", "CustomGameSettings", "HudSettings"
  }

  const ARRAY_FIELDS: set<string> := {
    "WorldBuffs", "Maps", "Teams", "Taunts", "Perks", "Buffs", "StatTrackers", "Gems", "Bundles", "TeamData",
    "MapsInRotation", "RequiredWorldBuffs", "RequiredTeamPlayerBuffs", "RequiredPlayerBuffs"
  }

  predicate Empty(j: Json) {
    j == Arr([]) || j == Obj([])
  }

  // ---- The repair ----

  function Fix(j: Json): Json
    decreases j, 1
  {
    match j
    case Scalar(_) => j
    case Arr(items) => Arr(seq(|items|, i requires 0 <= i < |items| => Fix(items[i])))
    case Obj(fields) =>
      Obj(seq(|fields|, i requires 0 <= i < |fields| => Field(fields[i].key, FixValue(fields[i].key, fields[i].value))))
  }

  function FixValue(key: string, value: Json): Json
    decreases value, 2
  {
    if Empty(value) && key in OBJECT_FIELDS then Obj([])
    else if Empty(value) && key in ARRAY_FIELDS then Arr([])
    else if Empty(value) then value
    else Fix(value)
  }

  /** The repair in place: entry by entry, each container among them repaired in its turn. */
  method FixEmptyTables(node: Json) returns (fixed: Json)
    ensures fixed == Fix(node)
    decreases node
  {
    match node {
      case Scalar(_) =>
        fixed := node;
      case Arr(items) =>
        var list := items;
        for i := 0 to |items|
          invariant |list| == |items|
          invariant forall k | 0 <= k < |items| :: list[k] == if k < i then Fix(items[k]) else items[k]
        {
          if list[i].Obj? || list[i].Arr? {
            var item := FixEmptyTables(list[i]);
            list := list[i := item];
          }
        }
        assert list == Fix(node).items;
        fixed := Arr(list);
      case Obj(fields) =>
        var obj := fields;
        for i := 0 to |fields|
          invariant |obj| == |fields|
          invariant forall k | 0 <= k < |fields| ::
            obj[k] == if k < i then Field(fields[k].key, FixValue(fields[k].key, fields[k].value)) else fields[k]
        {
          var key, value := obj[i].key, obj[i].value;
          var empty := value == Obj([]) || value == Arr([]);
          if empty && key in OBJECT_FIELDS {
            obj := obj[i := Field(key, Obj([]))];
          } else if empty && key in ARRAY_FIELDS {
            obj := obj[i := Field(key, Arr([]))];
          } else if !empty && (value.Obj? || value.Arr?) {
            ValueSmaller(fields, i);
            var repaired := FixEmptyTables(value);
            obj := obj[i := Field(key, repaired)];
          }
        }
        assert obj == Fix(node).fields;
        fixed := Obj(obj);
    }
  }

  lemma ValueSmaller(fields: seq<Field>, i: nat)
    requires i < |fields|
    ensures fields[i].value < Obj(fields)
  {
    assert fields[i] < Obj(fields);
  }

  // ---- What it undoes ----

  /** What cjson makes of a document: every empty container an empty object. */
  function Cjson(j: Json): Json
    decreases j
  {
    match j
    case Scalar(_) => j
    case Arr(items) =>
      if items == [] then Obj([]) else Arr(seq(|items|, i requires 0 <= i < |items| => Cjson(items[i])))
    case Obj(fields) =>
      Obj(seq(|fields|,
        i requires 0 <= i < |fields| => ValueSmaller(fields, i); Field(fields[i].key, Cjson(fields[i].value))))
  }

  /** Empty arrays stand under array keys only, and no empty object stands under one. */
  ghost predicate Faithful(j: Json)
    decreases j, 1
  {
    match j
    case Scalar(_) => true
    case Arr(items) => items != [] && forall i | 0 <= i < |items| :: Faithful(items[i])
    case Obj(fields) => forall i | 0 <= i < |fields| :: FaithfulValue(fields[i].key, fields[i].value)
  }

  ghost predicate FaithfulValue(key: string, value: Json)
    decreases value, 2
  {
    if value == Arr([]) then key in ARRAY_FIELDS
    else if value == Obj([]) then key !in ARRAY_FIELDS
    else Faithful(value)
  }

  lemma KeysApart()
    ensures OBJECT_FIELDS !! ARRAY_FIELDS
  {
  }

  /** cjson leaves a container of something what it is, and an empty one an empty object. */
  lemma CjsonEmpty(j: Json)
    ensures if Empty(j) then Cjson(j) == Obj([]) else !Empty(Cjson(j))
  {
    match j
    case Scalar(_) =>
    case Arr(items) => if items != [] { assert |Cjson(j).items| == |items|; }
    case Obj(fields) => assert |Cjson(j).fields| == |fields|;
  }

  /** The repair undoes cjson on exactly the documents that are faithful to their keys. */
  lemma {:induction false} RepairUndoes(j: Json)
    ensures Fix(Cjson(j)) == j <==> Faithful(j)
    decreases j, 1
  {
    match j
    case Scalar(_) =>
    case Arr(items) =>
      if items != [] {
        var back := Fix(Cjson(j)).items;
        forall i | 0 <= i < |items|
          ensures back[i] == Fix(Cjson(items[i])) && (back[i] == items[i] <==> Faithful(items[i]))
        {
          RepairUndoes(items[i]);
        }
        if Faithful(j) { assert back == items; }
      }
    case Obj(fields) =>
      var back := Fix(Cjson(j)).fields;
      forall i | 0 <= i < |fields|
        ensures back[i] == Field(fields[i].key, FixValue(fields[i].key, Cjson(fields[i].value)))
        ensures back[i] == fields[i] <==> FaithfulValue(fields[i].key, fields[i].value)
      {
        ValueSmaller(fields, i);
        ValueUndoes(fields[i].key, fields[i].value);
      }
      if Faithful(j) { assert back == fields; }
  }

  lemma {:induction false} ValueUndoes(key: string, value: Json)
    ensures FixValue(key, Cjson(value)) == value <==> FaithfulValue(key, value)
    decreases value, 2
  {
    KeysApart();
    CjsonEmpty(value);
    if !Empty(value) { RepairUndoes(value); }
  }

  lemma FixEmpty(j: Json)
    ensures Empty(Fix(j)) <==> Empty(j)
    ensures Empty(j) ==> Fix(j) == j
  {
    match j
    case Scalar(_) =>
    case Arr(items) => assert |Fix(j).items| == |items|;
    case Obj(fields) => assert |Fix(j).fields| == |fields|;
  }

  /** A repaired document needs no repair. */
  lemma {:induction false} RepairOnce(j: Json)
    ensures Fix(Fix(j)) == Fix(j)
    decreases j, 1
  {
    match j
    case Scalar(_) =>
    case Arr(items) =>
      forall i | 0 <= i < |items| ensures Fix(Fix(items[i])) == Fix(items[i]) { RepairOnce(items[i]); }
      assert Fix(Fix(j)).items == Fix(j).items;
    case Obj(fields) =>
      forall i | 0 <= i < |fields|
        ensures FixValue(fields[i].key, FixValue(fields[i].key, fields[i].value))
          == FixValue(fields[i].key, fields[i].value)
      {
        ValueSmaller(fields, i);
        ValueOnce(fields[i].key, fields[i].value);
      }
      assert Fix(Fix(j)).fields == Fix(j).fields;
  }

  lemma {:induction false} ValueOnce(key: string, value: Json)
    ensures FixValue(key, FixValue(key, value)) == FixValue(key, value)
    decreases value, 2
  {
    FixEmpty(value);
    if !Empty(value) { RepairOnce(value); }
  }

  /**
   * The same document however cjson wrote its empty containers: only emptiness under the known keys is decided again.
   */
  lemma {:induction false} RepairSettles(j: Json)
    requires Faithful(j)
    ensures Fix(j) == j
    decreases j, 1
  {
    RepairUndoes(j);
    RepairOnce(Cjson(j));
  }

  /** A document the repair cannot give back: an empty list of a lobby's players, which a map's key holds. */
  lemma UnderAMapKey()
    ensures var j := Obj([Field("Players", Arr([]))]); Fix(Cjson(j)) == Obj([Field("Players", Obj([]))]) != j
  {
    var j := Obj([Field("Players", Arr([]))]);
    CjsonEmpty(Arr([]));
    assert Cjson(j) == Obj([Field("Players", Obj([]))]);
    assert Fix(Cjson(j)) == Obj([Field("Players", Obj([]))]);
  }
}
