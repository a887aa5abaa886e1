/**
  Building the ENEM 2022 data file: every document of the task gets the
  area of its question, worked out from the number at the end of its id
  (45 questions per area, in the order languages, human sciences, natural
  sciences, mathematics), and the few-shot prompt built for it.  A
  document that already carries either field stops the script.
 */
module WriteOut {
  import opened Wrappers
  import opened Exceptions
  import opened BaseWrapper
  import PyStr

  const AREAS: seq<string> := ["languages", "human-sciences", "natural-sciences", "mathematics"]

  /** The number of questions in each area. */
  const QUESTIONS_PER_AREA: int := 45

  /** `np.ceil(q / 45)` for an integer `q`: the least integer `c` with
      `q <= 45 * c`. */
  function CeilDiv(q: int): (c: int)
    ensures QUESTIONS_PER_AREA * (c - 1) < q <= QUESTIONS_PER_AREA * c
  {
    // Dafny's division by a positive divisor rounds down
    -((-q) / QUESTIONS_PER_AREA)
  }

  /** The area of question number `q`: the list entry at `ceil(q / 45) - 1`,
      Python indexing, so that the indices -4..-1 count from the end. */
  function AreaOfNumber(q: int): (r: Result<string, Error>)
    ensures r.Ok? <==> -180 < q <= 180
    ensures r.Ok? ==> r.value in AREAS
    ensures r.Err? ==> r.error == IndexError
  {
    var i := CeilDiv(q) - 1;
    if 0 <= i < |AREAS| then Ok(AREAS[i])
    else if -|AREAS| <= i < 0 then Ok(AREAS[i + |AREAS|])
    else Err(IndexError)
  }

  /** Questions 1-45, 46-90, 91-135 and 136-180 fall into the four areas in
      order. */
  lemma AreaBlocks(q: int)
    requires 1 <= q <= 180
    ensures AreaOfNumber(q) == Ok(AREAS[(q - 1) / QUESTIONS_PER_AREA])
    ensures 1 <= q <= 45 ==> AreaOfNumber(q) == Ok("languages")
    ensures 46 <= q <= 90 ==> AreaOfNumber(q) == Ok("human-sciences")
    ensures 91 <= q <= 135 ==> AreaOfNumber(q) == Ok("natural-sciences")
    ensures 136 <= q <= 180 ==> AreaOfNumber(q) == Ok("mathematics")
  {
    var c := CeilDiv(q);
    assert c - 1 == (q - 1) / QUESTIONS_PER_AREA;
  }

  /** Question 0 lands on index -1, the last area. */
  lemma ZeroIsMathematics()
    ensures AreaOfNumber(0) == Ok("mathematics")
  {
    assert CeilDiv(0) == 0;
  }

  /** Numbers past the last question have no area. */
  lemma BeyondLastQuestion(q: int)
    requires q > 180
    ensures AreaOfNumber(q) == Err(IndexError)
  {
  }

  /** `int(doc_id.split("_")[-1])`. */
  function QuestionNumber(id: string): (r: Result<int, Error>)
    ensures r.Err? ==> r.error.ValueError?
  {
    var parts := PyStr.Split(id, "_");
    PyStr.ParseInt(parts[|parts| - 1])
  }

  /** The question number is the decimal number after the last underscore. */
  lemma QuestionNumberAfterLastUnderscore(prefix: string, n: nat)
    ensures QuestionNumber(prefix + "_" + PyStr.NatToString(n)) == Ok(n)
  {
    var digits := PyStr.NatToString(n);
    PyStr.NotContainsChar(digits, '_');
    PyStr.SplitLast(prefix, '_', digits);
    assert prefix + "_" + digits == prefix + ['_'] + digits;
    PyStr.IntRoundTrip(n);
  }

  /** A document: a JSON object. */
  type Doc = map<string, Value>

  const ID: string := "id"
  const AREA: string := "area"
  const PROMPT: string := "prompt"

  /** `get_area(doc)` */
  function GetArea(doc: Doc): (r: Result<string, Error>)
    ensures ID !in doc ==> r == Err(KeyError(ID))
    ensures ID in doc && !doc[ID].Str? ==> r == Err(AttributeError("split"))
    ensures ID in doc && doc[ID].Str? && QuestionNumber(doc[ID].s).Ok? ==>
      r == AreaOfNumber(QuestionNumber(doc[ID].s).value)
    ensures r.Ok? ==> r.value in AREAS
  {
    if ID !in doc then Err(KeyError(ID))
    else if !doc[ID].Str? then Err(AttributeError("split"))
    else
      match QuestionNumber(doc[ID].s)
      case Err(e) => Err(e)
      case Ok(q) => AreaOfNumber(q)
  }

  /** The few-shot prompt builder of the task.  It sees the document with its
      area already set; the position of the document in the loop stands for
      the state of the shared random generator the builder draws from. */
  type FewshotContext = (Doc, nat) -> string

  /** One pass of the loop body for the document at position `i`. */
  function Annotate(doc: Doc, i: nat, context: FewshotContext): (r: Result<Doc, Error>)
    ensures AREA in doc ==> r == Err(AssertionError(""))
    ensures r.Ok? ==> r.value.Keys == doc.Keys + {AREA, PROMPT} && GetArea(doc).Ok? && r.value[AREA] == Str(GetArea(doc).value)
  {
    if AREA in doc then Err(AssertionError(""))
    else
      match GetArea(doc)
      case Err(e) => Err(e)
      case Ok(area) =>
        var withArea := doc[AREA := Str(area)];
        if PROMPT in withArea then Err(AssertionError(""))
        else Ok(withArea[PROMPT := Str(context(withArea, i))])
  }

  /** A document is annotated exactly when it has neither field and its area
      is known; the annotated document keeps every field it had and gains the
      area and the prompt built from the document with its area. */
  lemma AnnotateSpec(doc: Doc, i: nat, context: FewshotContext)
    ensures var r := Annotate(doc, i, context);
      && (r.Ok? <==> AREA !in doc && PROMPT !in doc && GetArea(doc).Ok?)
      && (AREA in doc ==> r == Err(AssertionError("")))
      && (r.Err? && AREA !in doc && GetArea(doc).Err? ==> r.error == GetArea(doc).error)
      && (r.Ok? ==> r.value.Keys == doc.Keys + {AREA, PROMPT})
      && (r.Ok? ==> forall k :: k in doc ==> r.value[k] == doc[k])
      && (r.Ok? ==> r.value[AREA] == Str(GetArea(doc).value) && GetArea(doc).value in AREAS)
      && (r.Ok? ==> r.value[PROMPT] == Str(context(doc[AREA := Str(GetArea(doc).value)], i)))
  {
  }

  /** The loop that collects the annotated documents: every document is
      annotated in order, and the first one that cannot be stops it with
      that document's error. */
  method AnnotateDocs(docs: seq<Doc>, context: FewshotContext) returns (r: Result<seq<Doc>, Error>)
    ensures r.Ok? <==> forall i :: 0 <= i < |docs| ==> Annotate(docs[i], i, context).Ok?
    ensures r.Ok? ==> |r.value| == |docs|
    ensures r.Ok? ==> forall i :: 0 <= i < |docs| ==> r.value[i] == Annotate(docs[i], i, context).value
    ensures r.Err? ==> exists k :: 0 <= k < |docs| && Annotate(docs[k], k, context).Err?
                          && r.error == Annotate(docs[k], k, context).error
                          && forall j :: 0 <= j < k ==> Annotate(docs[j], j, context).Ok?
  {
    var jsonDocs: seq<Doc> := [];
    for i := 0 to |docs|
      invariant |jsonDocs| == i
      invariant forall j :: 0 <= j < i ==> Annotate(docs[j], j, context).Ok?
      invariant forall j :: 0 <= j < i ==> jsonDocs[j] == Annotate(docs[j], j, context).value
    {
      var doc := docs[i];
      if AREA in doc {
        return Err(AssertionError(""));
      }
      var area := GetArea(doc);
      if area.Err? {
        return Err(area.error);
      }
      doc := doc[AREA := Str(area.value)];
      if PROMPT in doc {
        return Err(AssertionError(""));
      }
      doc := doc[PROMPT := Str(context(doc, i))];
      assert doc == Annotate(docs[i], i, context).value;
      jsonDocs := jsonDocs + [doc];
    }
    return Ok(jsonDocs);
  }

  /** A document numbered `n` that has neither field is annotated with the
      area of its block of 45 questions. */
  lemma NumberedDocArea(doc: Doc, prefix: string, n: nat, i: nat, context: FewshotContext)
    requires 1 <= n <= 180
    requires ID in doc && doc[ID] == Str(prefix + "_" + PyStr.NatToString(n))
    requires AREA !in doc && PROMPT !in doc
    ensures Annotate(doc, i, context).Ok?
    ensures Annotate(doc, i, context).value[AREA] == Str(AREAS[(n - 1) / QUESTIONS_PER_AREA])
  {
    QuestionNumberAfterLastUnderscore(prefix, n);
    AreaBlocks(n);
    AnnotateSpec(doc, i, context);
  }
}
