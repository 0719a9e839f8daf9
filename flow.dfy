/** `validate_data` and `main_flow`: sample the catalog, read each sampled
    entry's `url`, fetch and project each record, validate it, and keep the
    records that pass, in sample order. The HTTP detail fetch is a parameter
    (`fetch`), a function from the url value to the decoded body or the
    exception the fetch task finally raised. */
module Flow {
  import opened Wrappers
  import opened PyJson
  import opened Schema
  import opened Sampler
  import opened Transform

  /** `validate_data(monster_data)`. `Monster(**d)` failing is caught and gives
      `None`; otherwise the validated model is dumped back to a dictionary. A
      value that is not a dictionary makes `Monster(**d)` raise `TypeError`,
      which is caught, but the handler's own `monster_data.get(...)` then
      raises `AttributeError` out of the task. */
  function ValidateData(monsterData: Json): (r: Result<Option<Json>, Exception>)
    ensures r.Err? <==> !monsterData.JObj?
    ensures r.Err? ==> r.error == AttributeError
    ensures r.Ok? ==> (r.value.Some? <==> IsMonster(monsterData))
    ensures r.Ok? && r.value.Some? ==> IsMonster(monsterData) && SchemaViewOf(r.value.value, monsterData)
    ensures r.Ok? && r.value.Some? ==> IsMonster(r.value.value) && HasOnlySchemaFields(r.value.value)
    ensures IsMonster(monsterData) && HasOnlySchemaFields(monsterData) ==> r == Ok(Some(monsterData))
  {
    if !monsterData.JObj? then Err(AttributeError)
    else
      match MonsterFromJson(monsterData)
      case None => Ok(None)
      case Some(m) =>
        DumpIsSchemaView(monsterData);
        assert HasOnlySchemaFields(monsterData) ==> MonsterToJson(m) == monsterData by {
          if HasOnlySchemaFields(monsterData) { ValidateThenDump(monsterData); }
        }
        Ok(Some(MonsterToJson(m)))
  }

  /** What `transform_monster_data` returns has exactly the schema's fields. */
  lemma TransformedHasOnlySchemaFields(raw: Json)
    requires TransformMonsterData(raw).Ok?
    ensures HasOnlySchemaFields(TransformMonsterData(raw).value)
  {
  }

  /** Validating a projected record either rejects it or returns it unchanged,
      field for field. */
  lemma ValidateTransformed(raw: Json)
    requires TransformMonsterData(raw).Ok?
    ensures var t := TransformMonsterData(raw).value;
      ValidateData(t) == Ok(if IsMonster(t) then Some(t) else None)
  {
  }

  /** `[m for m in results if m is not None]`. */
  function DropNones(results: seq<Option<Json>>): (r: seq<Json>)
    ensures |r| <= |results|
    ensures forall m | m in r :: Some(m) in results
  {
    if results == [] then []
    else
      var rest := DropNones(results[1..]);
      assert forall m | m in rest :: Some(m) in results[1..];
      match results[0]
      case None => rest
      case Some(m) => [m] + rest
  }

  /** The filter keeps order: it distributes over concatenation. */
  lemma {:induction false} DropNonesAppend(a: seq<Option<Json>>, b: seq<Option<Json>>)
    ensures DropNones(a + b) == DropNones(a) + DropNones(b)
  {
    if a == [] {
      assert a + b == b;
    } else {
      assert (a + b)[0] == a[0];
      assert (a + b)[1..] == a[1..] + b;
      DropNonesAppend(a[1..], b);
    }
  }

  /** Nothing but the `None`s is dropped. */
  lemma {:induction false} DropNonesKeepsValues(results: seq<Option<Json>>, m: Json)
    ensures m in DropNones(results) <==> Some(m) in results
  {
    if results != [] {
      DropNonesKeepsValues(results[1..], m);
      assert results == [results[0]] + results[1..];
    }
  }

  /** Reference definition of the aggregate: the records that meet the
      schema, unchanged and in their original order. */
  function KeepValid(records: seq<Json>): (r: seq<Json>)
    ensures |r| <= |records|
    ensures forall m | m in r :: m in records && IsMonster(m)
  {
    if records == [] then []
    else
      var rest := KeepValid(records[1..]);
      if IsMonster(records[0]) then [records[0]] + rest else rest
  }

  /** `validate_data.map(...)` then the `None` filter (lines 155 and 158). An
      exception from one validation fails the whole aggregate. */
  function AggregateValid(records: seq<Json>): (r: Result<seq<Json>, Exception>)
    ensures r.Ok? <==> forall t | t in records :: t.JObj?
    ensures r.Ok? ==> |r.value| <= |records|
    ensures r.Ok? ==> forall m | m in r.value :: IsMonster(m) && HasOnlySchemaFields(m)
  {
    var validated :- MapAll(records, ValidateData);
    assert forall v | v in validated :: v.Some? ==> IsMonster(v.value) && HasOnlySchemaFields(v.value);
    Ok(DropNones(validated))
  }

  /** On projected records, validating and dropping the `None`s is the same as
      keeping the records that meet the schema. */
  lemma {:induction false} AggregateIsKeepValid(records: seq<Json>)
    requires forall t | t in records :: HasOnlySchemaFields(t)
    ensures AggregateValid(records) == Ok(KeepValid(records))
  {
    if records != [] {
      forall i | 0 <= i < |records| ensures ValidateData(records[i]).Ok? {
        assert records[i] in records;
      }
      var vs := MapAll(records, ValidateData).value;
      var rest := MapAll(records[1..], ValidateData).value;
      assert records[0] in records;
      assert vs == [vs[0]] + rest;
      DropNonesAppend([vs[0]], rest);
      AggregateIsKeepValid(records[1..]);
    }
  }

  /** `[monster["url"] for monster in selected_monsters]`. */
  function ExtractUrls(selected: seq<Json>): (r: Result<seq<Json>, Exception>)
    ensures r.Ok? <==> forall m | m in selected :: m.JObj? && "url" in m.fields
    ensures r.Ok? ==> |r.value| == |selected| && forall i | 0 <= i < |selected| :: r.value[i] == selected[i].fields["url"]
  {
    var urls := MapAll(selected, m => Subscript(m, Name("url")));
    assert urls.Ok? ==> forall m | m in selected :: Subscript(m, Name("url")).Ok?;
    urls
  }

  /** One mapped item: `fetch_monster_details` then `transform_monster_data`;
      an exception of either fails the item. */
  function FetchAndTransform(fetch: Json -> Result<Json, Exception>, url: Json): (r: Result<Json, Exception>)
    ensures r.Ok? <==> fetch(url).Ok? && TransformMonsterData(fetch(url).value).Ok?
    ensures r.Ok? ==> r.value == TransformMonsterData(fetch(url).value).value
    ensures r.Ok? ==> HasOnlySchemaFields(r.value)
  {
    match fetch(url)
    case Err(e) => Err(e)
    case Ok(raw) =>
      var t := TransformMonsterData(raw);
      assert t.Ok? ==> HasOnlySchemaFields(t.value) by {
        if t.Ok? { TransformedHasOnlySchemaFields(raw); }
      }
      t
  }

  /** Lines 148-151: the sample and the urls read from it. */
  function SampledUrls(monsterList: seq<Json>, numMonsters: int, now: DateTime, draw: Draw): (r: Result<seq<Json>, Exception>)
    requires ValidDateTime(now) && SamplerContract(draw)
    ensures (numMonsters < 0 || numMonsters > |monsterList|) ==> r == Err(ValueError)
    ensures r.Ok? <==> var sample := SelectRandomMonsters(monsterList, numMonsters, now, draw);
      sample.Ok? && forall e | e in sample.value :: e.JObj? && "url" in e.fields
    ensures r.Ok? ==> |r.value| == numMonsters
    ensures r.Ok? ==>
      exists idx ::
        && DistinctPositions(idx, |monsterList|, numMonsters)
        && forall i | 0 <= i < numMonsters ::
             monsterList[idx[i]].JObj? && "url" in monsterList[idx[i]].fields && r.value[i] == monsterList[idx[i]].fields["url"]
  {
    var selected :- SelectRandomMonsters(monsterList, numMonsters, now, draw);
    ExtractUrls(selected)
  }

  /** `main_flow(num_monsters)` over the resolved results of its mapped tasks,
      for a given catalog, clock reading, sampler and detail fetch. The result
      is what `write_output` would receive if the filter ran over resolved
      values; an exception that escapes a task fails the run. */
  function MainFlow(monsterList: seq<Json>, numMonsters: int, now: DateTime, draw: Draw,
                    fetch: Json -> Result<Json, Exception>): (r: Result<seq<Json>, Exception>)
    requires ValidDateTime(now) && SamplerContract(draw)
    ensures (numMonsters < 0 || numMonsters > |monsterList|) ==> r == Err(ValueError)
    ensures r.Ok? <==> var urls := SampledUrls(monsterList, numMonsters, now, draw);
      urls.Ok? && forall u | u in urls.value :: FetchAndTransform(fetch, u).Ok?
    ensures r.Ok? ==> |r.value| <= numMonsters
    ensures r.Ok? ==> forall m | m in r.value :: IsMonster(m) && HasOnlySchemaFields(m)
    ensures r.Ok? ==> var urls := SampledUrls(monsterList, numMonsters, now, draw).value;
      r.value == KeepValid(seq(|urls|, i requires 0 <= i < |urls| => FetchAndTransform(fetch, urls[i]).value))
  {
    var urls :- SampledUrls(monsterList, numMonsters, now, draw);
    var transformed :- MapAll(urls, u => FetchAndTransform(fetch, u));
    assert transformed == seq(|urls|, i requires 0 <= i < |urls| => FetchAndTransform(fetch, urls[i]).value);
    AggregateIsKeepValid(transformed);
    AggregateValid(transformed)
  }

  /** Asking for no monsters gives an empty result. */
  lemma EmptyAsk(monsterList: seq<Json>, now: DateTime, draw: Draw, fetch: Json -> Result<Json, Exception>)
    requires ValidDateTime(now) && SamplerContract(draw)
    ensures MainFlow(monsterList, 0, now, draw, fetch) == Ok([])
  {
  }

  /** No per-item isolation: one sampled record whose fetch or projection
      raises fails the whole run. */
  lemma OneFailureFailsRun(monsterList: seq<Json>, numMonsters: int, now: DateTime, draw: Draw,
                           fetch: Json -> Result<Json, Exception>, k: nat)
    requires ValidDateTime(now) && SamplerContract(draw)
    requires var urls := SampledUrls(monsterList, numMonsters, now, draw);
      urls.Ok? && k < |urls.value| && FetchAndTransform(fetch, urls.value[k]).Err?
    ensures MainFlow(monsterList, numMonsters, now, draw, fetch).Err?
  {
  }
}
