/** The record schema of the pipeline: the `Action` and `Monster` models, what
    constructing them from a dictionary accepts (`Monster(**d)`), and what
    `model_dump()` gives back. Type checks are strict: a string field takes a
    JSON string, an integer field a JSON integer. */
module Schema {
  import opened Wrappers
  import opened PyJson

  /** A monster's action: both fields are strings. */
  datatype Action = Action(name: string, desc: string)

  /** A validated monster. `armorClass` is optional but, having no default,
      must be present (possibly as `None`). There is no range constraint on the
      integers. */
  datatype Monster = Monster(name: string, hitPoints: int, armorClass: Option<int>, actions: seq<Action>)

  /** The field names of each model. */
  const ActionFields: set<string> := {"name", "desc"}
  const MonsterFields: set<string> := {"name", "hit_points", "armor_class", "actions"}

  /** The schema of `Action`, stated on the raw dictionary: both fields present
      and strings. Extra keys are ignored. */
  predicate IsAction(j: Json) {
    && j.JObj?
    && "name" in j.fields && j.fields["name"].JStr?
    && "desc" in j.fields && j.fields["desc"].JStr?
  }

  /** The schema of `Monster`, stated on the raw dictionary. */
  predicate IsMonster(j: Json) {
    && j.JObj?
    && "name" in j.fields && j.fields["name"].JStr?
    && "hit_points" in j.fields && j.fields["hit_points"].JInt?
    && "armor_class" in j.fields && (j.fields["armor_class"].JNull? || j.fields["armor_class"].JInt?)
    && "actions" in j.fields && j.fields["actions"].JList?
    && forall a | a in j.fields["actions"].items :: IsAction(a)
  }

  /** A dictionary that carries exactly the fields of `Monster`, each action
      exactly the fields of `Action`: the shape `model_dump()` produces. */
  predicate HasOnlySchemaFields(j: Json) {
    && j.JObj?
    && j.fields.Keys == MonsterFields
    && j.fields["actions"].JList?
    && forall a | a in j.fields["actions"].items :: a.JObj? && a.fields.Keys == ActionFields
  }

  /** `out` is `j` seen through the schema, field for field: the same `name`,
      `hit_points` and `armor_class`, and for each action only its `name` and
      `desc`, in order; no other field. */
  predicate SchemaViewOf(out: Json, j: Json)
    requires IsMonster(j)
  {
    var acts := j.fields["actions"].items;
    && out.JObj? && out.fields.Keys == MonsterFields
    && out.fields["name"] == j.fields["name"]
    && out.fields["hit_points"] == j.fields["hit_points"]
    && out.fields["armor_class"] == j.fields["armor_class"]
    && out.fields["actions"].JList? && |out.fields["actions"].items| == |acts|
    && forall i | 0 <= i < |acts| ::
         && IsAction(acts[i])
         && out.fields["actions"].items[i] == JObj(map["name" := acts[i].fields["name"], "desc" := acts[i].fields["desc"]])
  }

  /** `Action(**j)`: the action when `j` meets the schema, `None` when pydantic
      would raise a validation error. */
  function ActionFromJson(j: Json): (r: Option<Action>)
    ensures r.Some? <==> IsAction(j)
  {
    if IsAction(j) then Some(Action(j.fields["name"].s, j.fields["desc"].s)) else None
  }

  /** Validates a list of actions element by element; one invalid element
      invalidates the list. */
  function ActionsFromJson(xs: seq<Json>): (r: Option<seq<Action>>)
    ensures r.Some? <==> forall a | a in xs :: IsAction(a)
    ensures r.Some? ==> |r.value| == |xs|
    ensures r.Some? ==> forall i | 0 <= i < |xs| :: Some(r.value[i]) == ActionFromJson(xs[i])
  {
    if xs == [] then Some([])
    else
      match (ActionFromJson(xs[0]), ActionsFromJson(xs[1..]))
      case (Some(a), Some(rest)) =>
        assert forall i | 1 <= i < |xs| :: xs[i] == xs[1..][i - 1];
        Some([a] + rest)
      case _ =>
        assert xs[0] in xs;
        assert forall a | a in xs[1..] :: a in xs;
        None
  }

  /** `Monster(**j)`: the monster when `j` meets the schema, `None` when pydantic
      would raise. A value that is not a dictionary cannot be unpacked with `**`
      and fails too. */
  function MonsterFromJson(j: Json): (r: Option<Monster>)
    ensures r.Some? <==> IsMonster(j)
    ensures r.Some? ==>
      && JStr(r.value.name) == j.fields["name"]
      && JInt(r.value.hitPoints) == j.fields["hit_points"]
      && (r.value.armorClass.None? <==> j.fields["armor_class"].JNull?)
      && (r.value.armorClass.Some? ==> JInt(r.value.armorClass.value) == j.fields["armor_class"])
      && |r.value.actions| == |j.fields["actions"].items|
      && forall i | 0 <= i < |r.value.actions| ::
           && IsAction(j.fields["actions"].items[i])
           && JStr(r.value.actions[i].name) == j.fields["actions"].items[i].fields["name"]
           && JStr(r.value.actions[i].desc) == j.fields["actions"].items[i].fields["desc"]
  {
    if !j.JObj? then None
    else if !("name" in j.fields && j.fields["name"].JStr?) then None
    else if !("hit_points" in j.fields && j.fields["hit_points"].JInt?) then None
    else if !("armor_class" in j.fields) then None
    else
      var ac := j.fields["armor_class"];
      var armor: Option<Option<int>> := match ac
        case JNull => Some(None)
        case JInt(v) => Some(Some(v))
        case _ => None;
      if armor.None? then None
      else if !("actions" in j.fields && j.fields["actions"].JList?) then None
      else match ActionsFromJson(j.fields["actions"].items)
        case None => None
        case Some(actions) =>
          Some(Monster(j.fields["name"].s, j.fields["hit_points"].i, armor.value, actions))
  }

  /** `Action.model_dump()`. */
  function ActionToJson(a: Action): (r: Json)
    ensures r.JObj? && r.fields.Keys == ActionFields
    ensures ActionFromJson(r) == Some(a)
  {
    JObj(map["name" := JStr(a.name), "desc" := JStr(a.desc)])
  }

  /** `Monster.model_dump()`: a dictionary with exactly the model's fields. */
  function MonsterToJson(m: Monster): (r: Json)
    ensures IsMonster(r) && HasOnlySchemaFields(r)
  {
    JObj(map[
      "name" := JStr(m.name),
      "hit_points" := JInt(m.hitPoints),
      "armor_class" := (match m.armorClass case None => JNull case Some(v) => JInt(v)),
      "actions" := JList(seq(|m.actions|, i requires 0 <= i < |m.actions| => ActionToJson(m.actions[i])))])
  }

  /** Round trip: validating a dumped monster gives the monster back. */
  lemma DumpThenValidate(m: Monster)
    ensures MonsterFromJson(MonsterToJson(m)) == Some(m)
  {
    var items := MonsterToJson(m).fields["actions"].items;
    assert forall i | 0 <= i < |items| :: ActionFromJson(items[i]) == Some(m.actions[i]);
    var parsed := ActionsFromJson(items);
    assert parsed.Some?;
    assert parsed.value == m.actions;
  }

  /** What `model_dump()` returns for a validated dictionary is that
      dictionary seen through the schema, extra fields dropped. */
  lemma DumpIsSchemaView(j: Json)
    requires IsMonster(j)
    ensures SchemaViewOf(MonsterToJson(MonsterFromJson(j).value), j)
  {
    var m := MonsterFromJson(j).value;
    var acts := j.fields["actions"].items;
    var out := MonsterToJson(m);
    forall i | 0 <= i < |acts|
      ensures out.fields["actions"].items[i] == JObj(map["name" := acts[i].fields["name"], "desc" := acts[i].fields["desc"]])
    {
      assert ActionToJson(m.actions[i]).fields == map["name" := acts[i].fields["name"], "desc" := acts[i].fields["desc"]];
    }
  }

  /** Round trip the other way: a dictionary that meets the schema and has no
      other fields is dumped back unchanged, field for field. */
  lemma ValidateThenDump(j: Json)
    requires IsMonster(j) && HasOnlySchemaFields(j)
    ensures MonsterToJson(MonsterFromJson(j).value) == j
  {
    var m := MonsterFromJson(j).value;
    var items := j.fields["actions"].items;
    forall i | 0 <= i < |items|
      ensures ActionToJson(m.actions[i]) == items[i]
    {
      assert items[i] in items;
      var a := items[i];
      assert ActionToJson(m.actions[i]).fields == a.fields;
    }
    var dumped := MonsterToJson(m);
    assert dumped.fields["actions"] == j.fields["actions"];
    assert dumped.fields["armor_class"] == j.fields["armor_class"];
    assert dumped.fields == j.fields;
  }

  /** One invalid action makes the whole monster invalid. */
  lemma OneBadActionSpoilsMonster(j: Json, k: nat)
    requires j.JObj? && "actions" in j.fields && j.fields["actions"].JList?
    requires k < |j.fields["actions"].items| && !IsAction(j.fields["actions"].items[k])
    ensures MonsterFromJson(j) == None
  {
  }

  /** An empty action list is valid: a monster needs no actions. */
  lemma NoActionsIsValid(j: Json)
    requires j.JObj? && "actions" in j.fields && j.fields["actions"] == JList([])
    requires "name" in j.fields && j.fields["name"].JStr?
    requires "hit_points" in j.fields && j.fields["hit_points"].JInt?
    requires "armor_class" in j.fields && (j.fields["armor_class"].JNull? || j.fields["armor_class"].JInt?)
    ensures MonsterFromJson(j) == Some(Monster(j.fields["name"].s, j.fields["hit_points"].i,
      if j.fields["armor_class"].JNull? then None else Some(j.fields["armor_class"].i), []))
  {
  }
}
