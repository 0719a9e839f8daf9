/** `transform_monster_data`: projects a raw monster record onto the four fields
    the output keeps. Python evaluates the dictionary display left to right, so
    the first failing field decides the exception. */
module Transform {
  import opened Wrappers
  import opened PyJson
  import opened Schema

  /** The list comprehension `[f(x) for x in xs]`: every element mapped in
      order; the first element whose `f` raises makes the whole comprehension
      raise that exception. */
  function MapAll<X, Y>(xs: seq<X>, f: X -> Result<Y, Exception>): (r: Result<seq<Y>, Exception>)
    ensures r.Ok? <==> forall i | 0 <= i < |xs| :: f(xs[i]).Ok?
    ensures r.Ok? ==> |r.value| == |xs| && forall i | 0 <= i < |xs| :: r.value[i] == f(xs[i]).value
    ensures r.Err? ==> exists i | 0 <= i < |xs| :: f(xs[i]) == Err(r.error) && forall j | 0 <= j < i :: f(xs[j]).Ok?
  {
    if xs == [] then Ok([])
    else
      match f(xs[0])
      case Err(e) => Err(e)
      case Ok(y) =>
        var rest := MapAll(xs[1..], f);
        assert forall i | 1 <= i < |xs| :: xs[i] == xs[1..][i - 1];
        match rest
        case Err(e) =>
          var i :| 0 <= i < |xs[1..]| && f(xs[1..][i]) == Err(e) && forall j | 0 <= j < i :: f(xs[1..][j]).Ok?;
          assert f(xs[i + 1]) == Err(e) && forall j | 0 <= j < i + 1 :: f(xs[j]).Ok?;
          Err(e)
        case Ok(ys) => Ok([y] + ys)
  }

  /** `{"name": action["name"], "desc": action["desc"]}`. */
  function ProjectAction(action: Json): (r: Result<Json, Exception>)
    ensures r.Ok? <==> HasActionKeys(action)
    ensures r.Ok? ==> r.value.JObj? && r.value.fields.Keys == ActionFields
    ensures r.Ok? ==> r.value.fields["name"] == action.fields["name"] && r.value.fields["desc"] == action.fields["desc"]
  {
    var name :- Subscript(action, Name("name"));
    var desc :- Subscript(action, Name("desc"));
    Ok(JObj(map["name" := name, "desc" := desc]))
  }

  /** `raw_data["armor_class"][0]["value"] if raw_data.get("armor_class") else None`. */
  function ArmorClass(raw: Json): (r: Result<Json, Exception>)
    requires raw.JObj?
    ensures r.Ok? <==> ArmorClassReadable(Get(raw, "armor_class", JNull))
    ensures r.Ok? && !Truthy(Get(raw, "armor_class", JNull)) ==> r.value == JNull
    ensures r.Ok? && Truthy(Get(raw, "armor_class", JNull)) ==>
      var ac := Get(raw, "armor_class", JNull);
      ac.JList? && ac.items[0].JObj? && "value" in ac.items[0].fields && r.value == ac.items[0].fields["value"]
  {
    var ac := Get(raw, "armor_class", JNull);
    if Truthy(ac) then
      var first :- Subscript(ac, Index(0));
      Subscript(first, Name("value"))
    else Ok(JNull)
  }

  /** The `actions` comprehension over `raw_data.get("actions", [])`. Iterating
      a string yields one-character strings and iterating a dictionary yields
      its keys; neither can be subscripted by a name, so a non-empty string or
      dictionary raises `TypeError` on its first element whatever the key
      order, and an empty one gives `[]`. Anything else is not iterable. */
  function Actions(raw: Json): (r: Result<seq<Json>, Exception>)
    requires raw.JObj?
    ensures r.Ok? <==> ActionsReadable(Get(raw, "actions", JList([])))
    ensures r.Ok? && !Get(raw, "actions", JList([])).JList? ==> r.value == []
    ensures r.Ok? && Get(raw, "actions", JList([])).JList? ==>
      var xs := Get(raw, "actions", JList([])).items;
      && |r.value| == |xs|
      && forall i | 0 <= i < |xs| ::
           && HasActionKeys(xs[i])
           && r.value[i] == JObj(map["name" := xs[i].fields["name"], "desc" := xs[i].fields["desc"]])
  {
    match Get(raw, "actions", JList([]))
    case JList(xs) => MapAll(xs, ProjectAction)
    case JStr(s) => if s == [] then Ok([]) else Err(TypeError)
    case JObj(m) => if m == map[] then Ok([]) else Err(TypeError)
    case _ => Err(TypeError)
  }

  /** `transform_monster_data(raw_data)`. */
  function TransformMonsterData(raw: Json): (r: Result<Json, Exception>)
    ensures r.Ok? <==> Transformable(raw)
    ensures !raw.JObj? ==> r == Err(TypeError)
    ensures raw.JObj? && "name" !in raw.fields ==> r == Err(KeyError(Name("name")))
    ensures raw.JObj? && "name" in raw.fields && "hit_points" !in raw.fields ==> r == Err(KeyError(Name("hit_points")))
    ensures r.Ok? ==> r.value.JObj? && r.value.fields.Keys == MonsterFields
    ensures r.Ok? ==> r.value.fields["name"] == raw.fields["name"] && r.value.fields["hit_points"] == raw.fields["hit_points"]
  {
    var name :- Subscript(raw, Name("name"));
    var hitPoints :- Subscript(raw, Name("hit_points"));
    var armorClass :- ArmorClass(raw);
    var actions :- Actions(raw);
    Ok(JObj(map["name" := name, "hit_points" := hitPoints, "armor_class" := armorClass, "actions" := JList(actions)]))
  }

  // ---- An independent description of the records the projection accepts ----

  predicate HasActionKeys(a: Json) {
    a.JObj? && "name" in a.fields && "desc" in a.fields
  }

  /** An `armor_class` value the projection can read: falsy, or a non-empty
      list whose first element is a dictionary with a `value`. */
  predicate ArmorClassReadable(ac: Json) {
    !Truthy(ac) || (ac.JList? && ac.items[0].JObj? && "value" in ac.items[0].fields)
  }

  /** An `actions` value the comprehension can run over. */
  predicate ActionsReadable(acts: Json) {
    match acts
    case JList(xs) => forall a | a in xs :: HasActionKeys(a)
    case JStr(s) => s == []
    case JObj(m) => m == map[]
    case _ => false
  }

  /** The raw records `transform_monster_data` does not raise on. */
  predicate Transformable(raw: Json) {
    && raw.JObj?
    && "name" in raw.fields
    && "hit_points" in raw.fields
    && ArmorClassReadable(Get(raw, "armor_class", JNull))
    && ActionsReadable(Get(raw, "actions", JList([])))
  }

  // ---- What the projection does with each field ----

  /** `armor_class` is the `value` of the first armor entry, and `None` when the
      key is absent or its value is falsy (null, `0`, `false`, `""`, `[]`, `{}`). */
  lemma TransformArmorClass(raw: Json)
    requires TransformMonsterData(raw).Ok?
    ensures var out := TransformMonsterData(raw).value.fields["armor_class"];
      && ("armor_class" !in raw.fields || !Truthy(raw.fields["armor_class"]) ==> out == JNull)
      && ("armor_class" in raw.fields && raw.fields["armor_class"].JList? && raw.fields["armor_class"].items != [] ==>
            out == raw.fields["armor_class"].items[0].fields["value"])
  {
  }

  /** A first armor entry without a `value` is a `KeyError`, once `name` and
      `hit_points` were found. */
  lemma ArmorClassWithoutValue(raw: Json)
    requires raw.JObj? && "name" in raw.fields && "hit_points" in raw.fields
    requires "armor_class" in raw.fields && raw.fields["armor_class"].JList?
    requires raw.fields["armor_class"].items != []
    requires var first := raw.fields["armor_class"].items[0]; first.JObj? && "value" !in first.fields
    ensures TransformMonsterData(raw) == Err(KeyError(Name("value")))
  {
  }

  /** The output actions follow the raw actions one for one, in order, each
      keeping only `name` and `desc`; a record without `actions` gets `[]`. */
  lemma TransformActions(raw: Json)
    requires TransformMonsterData(raw).Ok?
    ensures var out := TransformMonsterData(raw).value.fields["actions"];
      && out.JList?
      && ("actions" !in raw.fields ==> out.items == [])
      && ("actions" in raw.fields && raw.fields["actions"].JList? ==>
            var xs := raw.fields["actions"].items;
            && |out.items| == |xs|
            && forall i | 0 <= i < |xs| ::
                 out.items[i] == JObj(map["name" := xs[i].fields["name"], "desc" := xs[i].fields["desc"]]))
  {
  }

  /** An action lacking `name` or `desc` makes the whole record fail. */
  lemma ActionWithoutKeysFails(raw: Json, k: nat)
    requires raw.JObj? && "actions" in raw.fields && raw.fields["actions"].JList?
    requires k < |raw.fields["actions"].items| && !HasActionKeys(raw.fields["actions"].items[k])
    ensures TransformMonsterData(raw).Err?
  {
  }
}
