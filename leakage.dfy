/**
  The leakage check over the few-shot data file.  Each record's prompt holds
  the worked examples, each headed by a "Questão n:" marker, followed by the
  question itself.  The prompt is cut at one marker: at question 3 when the
  prompt has a question 4, else at question 2.  It must fall into exactly
  two parts, with the query absent from the part before the cut and present
  in the part after it.  The first record that breaks this stops the check.
 */
module Leakage {
  import opened Wrappers
  import opened Exceptions
  import PyStr

  /** The header of the `n`-th question in a prompt. */
  function Marker(n: char): (m: string)
    ensures |m| > 0
  {
    "##\nQuest\U{E3}o " + [n] + ":\n"
  }

  /** A record of the data file: the prompt and the query it ends with. */
  datatype Record = Record(prompt: string, query: string)

  /** Where the prompt is cut. */
  function Separator(prompt: string): (sep: string)
    ensures |sep| > 0
  {
    Marker(if PyStr.Contains(prompt, Marker('4')) then '3' else '2')
  }

  /** The three assertions of the loop body, in order, for a prompt `s`
      cut at `sep`. */
  function CheckCut(s: string, sep: string, query: string): (r: Outcome<Error>)
    requires |sep| > 0
  {
    var parts := PyStr.Split(s, sep);
    if |parts| != 2 then Fail(AssertionError(""))
    else if PyStr.Contains(parts[0], query) then Fail(AssertionError(""))
    else if !PyStr.Contains(parts[1], query) then Fail(AssertionError(""))
    else Pass
  }

  /** The loop body for one record. */
  function CheckRecord(d: Record): (r: Outcome<Error>)
    ensures r.Fail? ==> r.error == AssertionError("")
    ensures r.Pass? ==> PyStr.Contains(d.prompt, Separator(d.prompt))
  {
    PyStr.SplitTwoContains(d.prompt, Separator(d.prompt));
    CheckCut(d.prompt, Separator(d.prompt), d.query)
  }

  /** The prompt is cut cleanly at `p`: the separator occurs there, nowhere
      before, and does not start again after that occurrence; the query is
      not in the text before the cut and is in the text after it. */
  ghost predicate CleanCut(s: string, sep: string, query: string, p: nat)
  {
    && PyStr.OccursAt(s, sep, p)
    && (forall j :: 0 <= j < p ==> !PyStr.OccursAt(s, sep, j))
    && (forall j :: p + |sep| <= j ==> !PyStr.OccursAt(s, sep, j))
    && !PyStr.Contains(s[..p], query)
    && PyStr.Contains(s[p + |sep|..], query)
  }

  /** The assertions hold exactly when the prompt is cut cleanly somewhere. */
  lemma CheckCutMeaning(s: string, sep: string, query: string)
    requires |sep| > 0
    ensures CheckCut(s, sep, query).Pass? <==> exists p: nat :: CleanCut(s, sep, query, p)
  {
    if CheckCut(s, sep, query).Pass? {
      PyStr.SplitTwoAt(s, sep);
      assert CleanCut(s, sep, query, PyStr.IndexOf(s, sep, 0).value);
    }
    if p: nat :| CleanCut(s, sep, query, p) {
      PyStr.SplitTwoFrom(s, sep, p);
    }
  }

  /** A record passes exactly when its prompt is cut cleanly at the marker
      chosen for it. */
  lemma CheckRecordMeaning(d: Record)
    ensures CheckRecord(d).Pass? <==> exists p: nat :: CleanCut(d.prompt, Separator(d.prompt), d.query, p)
  {
    CheckCutMeaning(d.prompt, Separator(d.prompt), d.query);
  }

  /** A record passes when the split of its prompt has two pieces, the
      first without the query and the second with it. */
  lemma RecordParts(d: Record, parts: seq<string>)
    requires parts == PyStr.Split(d.prompt, Separator(d.prompt))
    ensures CheckRecord(d).Pass? <==>
      |parts| == 2 && !PyStr.Contains(parts[0], d.query) && PyStr.Contains(parts[1], d.query)
  {
  }

  /** The loop over the data file: the index of the first record that fails
      its assertions, if any. */
  method FirstFailure(data: seq<Record>) returns (failed: Option<nat>)
    ensures failed.None? <==> forall i :: 0 <= i < |data| ==> CheckRecord(data[i]).Pass?
    ensures failed.Some? ==> failed.value < |data| && CheckRecord(data[failed.value]).Fail?
    ensures failed.Some? ==> forall j :: 0 <= j < failed.value ==> CheckRecord(data[j]).Pass?
  {
    for i := 0 to |data|
      invariant forall j :: 0 <= j < i ==> CheckRecord(data[j]).Pass?
    {
      var d := data[i];
      var splitted := PyStr.Split(d.prompt, Separator(d.prompt));
      RecordParts(d, splitted);
      if |splitted| != 2 || PyStr.Contains(splitted[0], d.query) || !PyStr.Contains(splitted[1], d.query) {
        return Some(i);
      }
    }
    return None;
  }
}
