/**
  The evaluation driver's pure helpers and loops: choosing the adapter for
  a model name, grouping the question records by area and id, and counting
  correct predictions per area and in total.
 */
module Evaluator {
  import opened Wrappers
  import opened Exceptions
  import PyStr
  import HFWrapper
  import OpenAIWrapper

  // ---------------------------------------------------------------------------
  // Areas
  // ---------------------------------------------------------------------------

  /** The rows of the results table: the four areas and the total. */
  datatype Row = LanguagesAndCodes | HumanSciences | NaturalSciences | Mathematics | Total

  /** The name a row is printed and keyed under. */
  function RowName(row: Row): (name: string)
    ensures name != []
  {
    match row
    case LanguagesAndCodes => "Languages and Codes"
    case HumanSciences => "Human Sciences"
    case NaturalSciences => "Natural Sciences"
    case Mathematics => "Mathematics"
    case Total => "Total"
  }

  /** Different rows are printed under different names, so keying the
      counters by row is keying them by name. */
  lemma RowNameInjective(a: Row, b: Row)
    ensures RowName(a) == RowName(b) <==> a == b
  {
  }

  /** The dataset's area keys and the rows they are counted under. */
  const AREA_MAP: map<string, Row> := map[
    "languages" := LanguagesAndCodes,
    "human-sciences" := HumanSciences,
    "natural-sciences" := NaturalSciences,
    "mathematics" := Mathematics
  ]

  /** The rows of the results table: the four areas and "Total". */
  const LABELS: set<Row> := {LanguagesAndCodes, HumanSciences, NaturalSciences, Mathematics, Total}

  /** Different area keys name different areas, and none is named "Total". */
  lemma AreaMapInjective(a: string, b: string)
    requires a in AREA_MAP && b in AREA_MAP
    ensures AREA_MAP[a] == AREA_MAP[b] <==> a == b
    ensures AREA_MAP[a] != Total
  {
  }

  // ---------------------------------------------------------------------------
  // get_llm
  // ---------------------------------------------------------------------------

  /** The adapter `get_llm` builds, with the configuration it reads. */
  datatype LlmChoice =
    | UseOpenAI(model: string)
    | UseHF(variant: HFWrapper.HFVariant, endpointUrl: string, token: string, namespace: string, name: string)

  const OPENAI_KEY_ERROR: string := "You need to set OPENAI_API_KEY in your environment variable."

  /** `f"huggingface_{model.replace('-', '')}_{suffix}"` */
  function EnvName(model: string, suffix: string): (r: string)
    ensures PyStr.StartsWith(r, "huggingface_")
    ensures PyStr.EndsWith(r, "_" + suffix)
  {
    "huggingface_" + PyStr.RemoveChar(model, '-') + "_" + suffix
  }

  /** The four environment lookups of an endpoint adapter, in argument
      order; the first missing name raises KeyError. */
  function HFConfig(variant: HFWrapper.HFVariant, model: string, env: map<string, string>): (r: Result<LlmChoice, Error>)
    ensures r.Ok? <==> EnvName(model, "url") in env && "huggingface_token" in env
                        && "huggingface_namespace" in env && EnvName(model, "name") in env
    ensures r.Ok? ==> r.value == UseHF(variant, env[EnvName(model, "url")], env["huggingface_token"],
                                       env["huggingface_namespace"], env[EnvName(model, "name")])
    ensures r.Err? ==> r.error.KeyError?
  {
    var url := EnvName(model, "url");
    var name := EnvName(model, "name");
    if url !in env then Err(KeyError(url))
    else if "huggingface_token" !in env then Err(KeyError("huggingface_token"))
    else if "huggingface_namespace" !in env then Err(KeyError("huggingface_namespace"))
    else if name !in env then Err(KeyError(name))
    else Ok(UseHF(variant, env[url], env["huggingface_token"], env["huggingface_namespace"], env[name]))
  }

  /** `get_llm`: the adapter is chosen by the prefix of the model name.
      Building the commercial adapter lists the service's models with the
      key; `listing` is how that listing went. */
  function GetLlm(model: string, env: map<string, string>, listing: Outcome<BackendException>): (r: Result<LlmChoice, Error>)
    ensures r.Ok? && r.value.UseOpenAI? ==> "OPENAI_API_KEY" in env && listing == Pass && r.value.model == model
    ensures r.Ok? && r.value.UseHF? ==>
      && "huggingface_token" in env && "huggingface_namespace" in env
      && EnvName(model, "url") in env && EnvName(model, "name") in env
      && r.value.token == env["huggingface_token"] && r.value.namespace == env["huggingface_namespace"]
      && r.value.endpointUrl == env[EnvName(model, "url")] && r.value.name == env[EnvName(model, "name")]
  {
    if PyStr.StartsWith(model, "gpt-3.5-turbo") || PyStr.StartsWith(model, "gpt-4") then
      if "OPENAI_API_KEY" !in env then Err(AssertionError(OPENAI_KEY_ERROR))
      else
        match OpenAIWrapper.InitCheck(None, true, listing)
        case Pass => Ok(UseOpenAI(model))
        case Fail(e) => Err(e)
    else if PyStr.StartsWith(model, "LLaMA-2") then HFConfig(HFWrapper.Llama2, model, env)
    else if PyStr.StartsWith(model, "Falcon") then HFConfig(HFWrapper.Falcon, model, env)
    else Err(ValueError("Model " + model + " is not available."))
  }

  predicate IsOpenAIName(model: string)
  {
    PyStr.StartsWith(model, "gpt-3.5-turbo") || PyStr.StartsWith(model, "gpt-4")
  }

  /** Which adapter each family of names gets, and when the choice fails:
      a commercial name needs the key in the environment and then fails
      exactly as the adapter's key check does. */
  lemma GetLlmDispatch(model: string, env: map<string, string>, listing: Outcome<BackendException>)
    ensures var r := GetLlm(model, env, listing);
      && (IsOpenAIName(model) && "OPENAI_API_KEY" !in env ==> r == Err(AssertionError(OPENAI_KEY_ERROR)))
      && (IsOpenAIName(model) && "OPENAI_API_KEY" in env ==>
            && (r.Ok? <==> listing == Pass)
            && (r.Ok? ==> r == Ok(UseOpenAI(model)))
            && (listing == Fail(ClientAuthenticationError) ==> r == Err(AuthenticationError))
            && (listing.Fail? && listing.error != ClientAuthenticationError ==> r == Err(Raised(listing.error))))
      && (!IsOpenAIName(model) && PyStr.StartsWith(model, "LLaMA-2") ==>
            (r.Ok? ==> r.value.UseHF? && r.value.variant == HFWrapper.Llama2))
      && (!IsOpenAIName(model) && !PyStr.StartsWith(model, "LLaMA-2") && PyStr.StartsWith(model, "Falcon") ==>
            (r.Ok? ==> r.value.UseHF? && r.value.variant == HFWrapper.Falcon))
      && (r.Ok? ==> IsOpenAIName(model) || PyStr.StartsWith(model, "LLaMA-2") || PyStr.StartsWith(model, "Falcon"))
      && (r.Err? && r.error.ValueError? <==>
            !IsOpenAIName(model) && !PyStr.StartsWith(model, "LLaMA-2") && !PyStr.StartsWith(model, "Falcon"))
  {
  }

  /** The variable names carry the model name with its dashes removed,
      and a name without dashes is used as it is. */
  lemma EnvNameSpec(model: string, suffix: string)
    ensures var n := EnvName(model, suffix);
      forall i :: |"huggingface_"| <= i < |n| - |suffix| - 1 ==> n[i] != '-'
    ensures (forall i :: 0 <= i < |model| ==> model[i] != '-') ==>
      EnvName(model, suffix) == "huggingface_" + model + "_" + suffix
  {
    var m := PyStr.RemoveChar(model, '-');
    var n := EnvName(model, suffix);
    assert n == "huggingface_" + m + "_" + suffix;
    forall i | |"huggingface_"| <= i < |n| - |suffix| - 1 ensures n[i] != '-' {
      assert n[i] == m[i - |"huggingface_"|];
    }
    if forall i :: 0 <= i < |model| ==> model[i] != '-' {
      PyStr.RemoveCharKeepsOthers(model, '-');
    }
  }

  // ---------------------------------------------------------------------------
  // format_enem_dataset
  // ---------------------------------------------------------------------------

  /** A question record, with the fields the evaluator reads. */
  datatype Question = Question(id: string, area: string, prompt: string, gold: int)

  /** Area name -> question id -> record. */
  type Grouped = map<Row, map<string, Question>>

  predicate Occupied(g: Grouped, area: Row, id: string)
  {
    area in g && id in g[area]
  }

  /** One step of the loop: `new_dataset[AREA_MAP[d["area"]]][d["id"]] = d`
      after checking that the slot is free. */
  function Place(g: Grouped, d: Question): (r: Result<Grouped, Error>)
    ensures d.area !in AREA_MAP ==> r == Err(KeyError(d.area))
    ensures d.area in AREA_MAP ==> (r.Ok? <==> !Occupied(g, AREA_MAP[d.area], d.id))
    ensures r.Err? && d.area in AREA_MAP ==> r.error == AssertionError("")
  {
    if d.area !in AREA_MAP then Err(KeyError(d.area))
    else
      var area := AREA_MAP[d.area];
      var inner := if area in g then g[area] else map[];
      if d.id in inner then Err(AssertionError(""))
      else Ok(g[area := inner[d.id := d]])
  }

  /** The loop from the grouping `g` over the records `ds`. */
  function GroupFrom(g: Grouped, ds: seq<Question>): (r: Result<Grouped, Error>)
    ensures r.Err? ==> r.error == AssertionError("") || exists i :: 0 <= i < |ds| && r.error == KeyError(ds[i].area)
    decreases |ds|
  {
    if ds == [] then Ok(g)
    else
      match Place(g, ds[0])
      case Err(e) => Err(e)
      case Ok(g') => GroupFrom(g', ds[1..])
  }

  /** What `format_enem_dataset` returns or raises. */
  function GroupByArea(ds: seq<Question>): (r: Result<Grouped, Error>)
    ensures ds == [] ==> r == Ok(map[])
    ensures r.Err? ==> r.error == AssertionError("") || exists i :: 0 <= i < |ds| && r.error == KeyError(ds[i].area)
  {
    GroupFrom(map[], ds)
  }

  /** `format_enem_dataset` */
  method FormatEnemDataset(dataset: seq<Question>) returns (r: Result<Grouped, Error>)
    ensures r == GroupByArea(dataset)
  {
    var grouped: Grouped := map[];
    var i := 0;
    while i < |dataset|
      invariant 0 <= i <= |dataset|
      invariant GroupByArea(dataset) == GroupFrom(grouped, dataset[i..])
    {
      var d := dataset[i];
      ghost var old_grouped := grouped;
      assert dataset[i..][1..] == dataset[i + 1..];
      if d.area !in AREA_MAP {
        return Err(KeyError(d.area));
      }
      var area := AREA_MAP[d.area];
      if area !in grouped {
        grouped := grouped[area := map[]];
      }
      if d.id in grouped[area] {
        return Err(AssertionError(""));
      }
      grouped := grouped[area := grouped[area][d.id := d]];
      ghost var inner := if area in old_grouped then old_grouped[area] else map[];
      assert grouped == old_grouped[area := inner[d.id := d]];
      assert Place(old_grouped, d) == Ok(grouped);
      i := i + 1;
    }
    assert dataset[i..] == [];
    r := Ok(grouped);
  }

  /** Every record sits under its own area name and id. */
  predicate WellPlaced(g: Grouped)
  {
    forall a, id :: a in g && id in g[a] ==>
      g[a][id].id == id && g[a][id].area in AREA_MAP && AREA_MAP[g[a][id].area] == a
  }

  /** The records `ds` can all be placed into `g`: their areas are known,
      their slots are free, and no two of them share a slot. */
  predicate Placeable(g: Grouped, ds: seq<Question>)
  {
    && (forall i :: 0 <= i < |ds| ==> ds[i].area in AREA_MAP && !Occupied(g, AREA_MAP[ds[i].area], ds[i].id))
    && (forall i, j :: 0 <= i < j < |ds| ==> ds[i].area != ds[j].area || ds[i].id != ds[j].id)
  }

  /** The records held by a grouping. */
  function Records(g: Grouped): set<Question>
  {
    set a, id | a in g && id in g[a] :: g[a][id]
  }

  lemma PlaceRecords(g: Grouped, d: Question)
    requires Place(g, d).Ok?
    ensures Records(Place(g, d).value) == Records(g) + {d}
    ensures WellPlaced(g) ==> WellPlaced(Place(g, d).value)
  {
    var g' := Place(g, d).value;
    var area := AREA_MAP[d.area];
    assert d == g'[area][d.id];
    forall x | x in Records(g) ensures x in Records(g') {
      var a, id :| a in g && id in g[a] && g[a][id] == x;
      assert a in g' && id in g'[a] && g'[a][id] == x;
    }
  }

  /** The loop succeeds exactly on placeable records. */
  lemma {:induction false} GroupFromOk(g: Grouped, ds: seq<Question>)
    ensures GroupFrom(g, ds).Ok? <==> Placeable(g, ds)
    decreases |ds|
  {
    if ds != [] {
      var d := ds[0];
      if d.area in AREA_MAP && !Occupied(g, AREA_MAP[d.area], d.id) {
        var g' := Place(g, d).value;
        GroupFromOk(g', ds[1..]);
        var area := AREA_MAP[d.area];
        forall x: Question | d.area != x.area || d.id != x.id
          ensures x.area in AREA_MAP ==> (Occupied(g', AREA_MAP[x.area], x.id) <==> Occupied(g, AREA_MAP[x.area], x.id))
        {
          if x.area in AREA_MAP {
            AreaMapInjective(x.area, d.area);
          }
        }
        if Placeable(g, ds) {
          forall i | 0 <= i < |ds[1..]|
            ensures ds[1..][i].area in AREA_MAP && !Occupied(g', AREA_MAP[ds[1..][i].area], ds[1..][i].id)
          {
            assert ds[1..][i] == ds[i + 1];
          }
        }
        if Placeable(g', ds[1..]) {
          forall i | 0 <= i < |ds|
            ensures ds[i].area in AREA_MAP && !Occupied(g, AREA_MAP[ds[i].area], ds[i].id)
          {
            if i > 0 {
              assert ds[i] == ds[1..][i - 1];
            }
          }
          forall i, j | 0 <= i < j < |ds| ensures ds[i].area != ds[j].area || ds[i].id != ds[j].id {
            if i == 0 {
              assert ds[j] == ds[1..][j - 1];
              AreaMapInjective(ds[j].area, d.area);
            } else {
              assert ds[i] == ds[1..][i - 1] && ds[j] == ds[1..][j - 1];
            }
          }
        }
      } else {
        assert !Placeable(g, ds) by {
          assert ds[0] == d;
        }
      }
    }
  }

  /** A successful loop adds exactly the records `ds`, each in its own slot. */
  lemma {:induction false} GroupFromContents(g: Grouped, ds: seq<Question>)
    requires GroupFrom(g, ds).Ok?
    ensures Records(GroupFrom(g, ds).value) == Records(g) + set i | 0 <= i < |ds| :: ds[i]
    ensures WellPlaced(g) ==> WellPlaced(GroupFrom(g, ds).value)
    decreases |ds|
  {
    if ds != [] {
      var g' := Place(g, ds[0]).value;
      PlaceRecords(g, ds[0]);
      GroupFromContents(g', ds[1..]);
      var tail := set i | 0 <= i < |ds[1..]| :: ds[1..][i];
      var all := set i | 0 <= i < |ds| :: ds[i];
      assert all == {ds[0]} + tail by {
        forall x | x in all ensures x in {ds[0]} + tail {
          var i :| 0 <= i < |ds| && ds[i] == x;
          if i > 0 {
            assert ds[1..][i - 1] == x;
          }
        }
        forall x | x in tail ensures x in all {
          var i :| 0 <= i < |ds[1..]| && ds[1..][i] == x;
          assert ds[i + 1] == x;
        }
      }
    }
  }

  /** The result of `format_enem_dataset`: it succeeds exactly when every
      area is known and no area holds an id twice; then it holds exactly
      the input records, each at `[AREA_MAP[area]][id]`. */
  lemma GroupByAreaSpec(ds: seq<Question>)
    ensures GroupByArea(ds).Ok? <==>
      && (forall i :: 0 <= i < |ds| ==> ds[i].area in AREA_MAP)
      && (forall i, j :: 0 <= i < j < |ds| ==> ds[i].area != ds[j].area || ds[i].id != ds[j].id)
    ensures GroupByArea(ds).Ok? ==>
      && Records(GroupByArea(ds).value) == (set i | 0 <= i < |ds| :: ds[i])
      && WellPlaced(GroupByArea(ds).value)
  {
    GroupFromOk(map[], ds);
    if GroupByArea(ds).Ok? {
      GroupFromContents(map[], ds);
      assert Records(map[]) == {};
    }
  }

  /** The same id in two areas is fine; twice in one area is not. */
  lemma DuplicateIdRejected(q: Question, r: Question)
    requires q.area in AREA_MAP && r.area in AREA_MAP && q.id == r.id
    ensures GroupByArea([q, r]).Ok? <==> q.area != r.area
  {
    var ds := [q, r];
    assert ds[0] == q && ds[1] == r;
    GroupByAreaSpec(ds);
  }

  // ---------------------------------------------------------------------------
  // The counting loop of build_results_table
  // ---------------------------------------------------------------------------

  /** A report entry, with the fields the counting reads. */
  datatype ReportItem = ReportItem(pred: string, gold: string, area: string)

  /** Whether `item` counts towards the row `row`. */
  predicate InRow(item: ReportItem, row: Row)
  {
    row == Total || (item.area in AREA_MAP && AREA_MAP[item.area] == row)
  }

  /** How many of the first `n` items count towards `row`. */
  function CountIn(items: seq<ReportItem>, n: nat, row: Row): nat
    requires n <= |items|
  {
    if n == 0 then 0
    else CountIn(items, n - 1, row) + (if InRow(items[n - 1], row) then 1 else 0)
  }

  /** How many of the first `n` items count towards `row` and are correct. */
  function CorrectIn(items: seq<ReportItem>, n: nat, row: Row): nat
    requires n <= |items|
  {
    if n == 0 then 0
    else
      var item := items[n - 1];
      CorrectIn(items, n - 1, row) + (if InRow(item, row) && item.pred == item.gold then 1 else 0)
  }

  /** The two counters of one (model, dataset) cell. */
  datatype Tally = Tally(isCorrect: map<Row, nat>, count: map<Row, nat>)

  function ZeroCounts(): (m: map<Row, nat>)
    ensures m.Keys == LABELS
  {
    map l | l in LABELS :: 0
  }

  /** Before the loop every row is at zero. */
  lemma ZeroCounted(items: seq<ReportItem>)
    ensures Counted(items, 0, ZeroCounts(), ZeroCounts())
  {
    forall l: Row ensures l in LABELS {
      match l
      case LanguagesAndCodes =>
      case HumanSciences =>
      case NaturalSciences =>
      case Mathematics =>
      case Total =>
    }
  }

  /** The counters hold the counts of the first `n` items, row by row. */
  predicate Counted(items: seq<ReportItem>, n: nat, isCorrect: map<Row, nat>, count: map<Row, nat>)
    requires n <= |items|
  {
    forall l: Row :: l in isCorrect && l in count && isCorrect[l] == CorrectIn(items, n, l) && count[l] == CountIn(items, n, l)
  }

  /** The counting loop: for each item, its area's row and the Total row
      get one more count, and one more correct when `pred == gold`; an
      unknown area raises KeyError before that item changes anything. */
  method CountResults(report: seq<ReportItem>) returns (r: Result<Tally, Error>)
    ensures r.Ok? <==> forall i :: 0 <= i < |report| ==> report[i].area in AREA_MAP
    ensures r.Err? ==> exists k :: (&& 0 <= k < |report|
                                    && report[k].area !in AREA_MAP
                                    && r.error == KeyError(report[k].area)
                                    && forall j :: 0 <= j < k ==> report[j].area in AREA_MAP)
    ensures r.Ok? ==> Counted(report, |report|, r.value.isCorrect, r.value.count)
  {
    var isCorrect := ZeroCounts();
    var count := ZeroCounts();
    ZeroCounted(report);
    var i := 0;
    while i < |report|
      invariant 0 <= i <= |report|
      invariant forall j :: 0 <= j < i ==> report[j].area in AREA_MAP
      invariant Counted(report, i, isCorrect, count)
    {
      var item := report[i];
      if item.area !in AREA_MAP {
        return Err(KeyError(item.area));
      }
      ghost var before := (isCorrect, count);
      var area := AREA_MAP[item.area];
      var ok := if item.pred == item.gold then 1 else 0;
      isCorrect := isCorrect[area := isCorrect[area] + ok];
      isCorrect := isCorrect[Total := isCorrect[Total] + ok];
      count := count[area := count[area] + 1];
      count := count[Total := count[Total] + 1];
      CountStep(report, i, before.0, before.1);
      i := i + 1;
    }
    r := Ok(Tally(isCorrect, count));
  }

  /** One more item adds one to its area's row and to the Total row. */
  lemma CountStep(report: seq<ReportItem>, i: nat, isCorrect: map<Row, nat>, count: map<Row, nat>)
    requires i < |report| && report[i].area in AREA_MAP
    requires Counted(report, i, isCorrect, count)
    ensures var area := AREA_MAP[report[i].area];
      var ok := if report[i].pred == report[i].gold then 1 else 0;
      var isCorrect1 := isCorrect[area := isCorrect[area] + ok];
      var count1 := count[area := count[area] + 1];
      Counted(report, i + 1, isCorrect1[Total := isCorrect1[Total] + ok], count1[Total := count1[Total] + 1])
  {
    AreaMapInjective(report[i].area, report[i].area);
  }

  /** The Total row counts every item. */
  lemma {:induction false} TotalCountsAll(items: seq<ReportItem>, n: nat)
    requires n <= |items|
    ensures CountIn(items, n, Total) == n
  {
    if n > 0 {
      TotalCountsAll(items, n - 1);
    }
  }

  /** A row never has more correct items than items. */
  lemma {:induction false} CorrectAtMostCount(items: seq<ReportItem>, n: nat, row: Row)
    requires n <= |items|
    ensures CorrectIn(items, n, row) <= CountIn(items, n, row)
  {
    if n > 0 {
      CorrectAtMostCount(items, n - 1, row);
    }
  }

  /** When every area is known, the four area rows add up to the Total row,
      for the counts and for the correct answers. */
  lemma {:induction false} AreasAddUpToTotal(items: seq<ReportItem>, n: nat)
    requires n <= |items|
    requires forall i :: 0 <= i < n ==> items[i].area in AREA_MAP
    ensures CountIn(items, n, LanguagesAndCodes) + CountIn(items, n, HumanSciences)
          + CountIn(items, n, NaturalSciences) + CountIn(items, n, Mathematics) == CountIn(items, n, Total)
    ensures CorrectIn(items, n, LanguagesAndCodes) + CorrectIn(items, n, HumanSciences)
          + CorrectIn(items, n, NaturalSciences) + CorrectIn(items, n, Mathematics) == CorrectIn(items, n, Total)
  {
    if n > 0 {
      AreasAddUpToTotal(items, n - 1);
    }
  }
}
