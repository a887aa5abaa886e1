/**
  Reading the chosen alternative out of a model's answer.  Two regular
  expressions are scanned with `re.findall`:

    (?:|[Ll]etra |[Aa]lternativa )([ABCDE])\.      -- a letter and a dot
    (?:|[Ll]etra |[Aa]lternativa )([ABCDE])        -- a bare letter

  The scanner below follows the regex engine: at each position the
  alternatives of the prefix group are tried in order (the empty one
  first), a match resumes the scan after its last character and a failure
  moves one position on.  Because the empty alternative comes first, the
  prefixes never change what is captured: the captures are exactly the
  letters A-E (followed by a dot, for the first expression), in order.
 */
module AnswerExtraction {
  import opened Wrappers
  import opened Exceptions

  /** `[ABCDE]` */
  predicate IsChoice(c: char)
  {
    'A' <= c <= 'E'
  }

  /** The alternatives of `(?:|[Ll]etra |[Aa]lternativa )`, in the order the
      engine tries them. */
  const PREFIXES: seq<string> := ["", "Letra ", "letra ", "Alternativa ", "alternativa "]

  /** Position `r` holds a letter the expression would capture on its own,
      with the empty prefix. */
  predicate IsCapture(s: string, r: nat, dotted: bool)
  {
    r < |s| && IsChoice(s[r]) && (!dotted || (r + 1 < |s| && s[r + 1] == '.'))
  }

  /** The expression with prefix `pre` matched at `p`: the position of the
      captured letter. */
  function TryPrefix(s: string, p: nat, pre: string, dotted: bool): (q: Option<nat>)
    ensures q.Some? ==> q.value == p + |pre| && IsCapture(s, q.value, dotted) && s[p..q.value] == pre
    ensures q.None? ==> !(p + |pre| <= |s| && s[p..p + |pre|] == pre && IsCapture(s, p + |pre|, dotted))
  {
    var q := p + |pre|;
    if q <= |s| && s[p..q] == pre && IsCapture(s, q, dotted) then Some(q) else None
  }

  /** The first alternative of `alts` that matches at `p`. */
  function FirstAlternative(s: string, p: nat, alts: seq<string>, dotted: bool): (q: Option<nat>)
  {
    if alts == [] then None
    else if TryPrefix(s, p, alts[0], dotted).Some? then TryPrefix(s, p, alts[0], dotted)
    else FirstAlternative(s, p, alts[1..], dotted)
  }

  /** The match found is the match of one of the alternatives, and there is
      one exactly when some alternative matches. */
  lemma {:induction false} FirstAlternativeSpec(s: string, p: nat, alts: seq<string>, dotted: bool)
    ensures var q := FirstAlternative(s, p, alts, dotted);
      && (q.Some? ==> exists k :: 0 <= k < |alts| && TryPrefix(s, p, alts[k], dotted) == q)
      && (q.Some? <==> exists k :: 0 <= k < |alts| && TryPrefix(s, p, alts[k], dotted).Some?)
  {
    if alts != [] && TryPrefix(s, p, alts[0], dotted).None? {
      FirstAlternativeSpec(s, p, alts[1..], dotted);
      assert forall k :: 0 < k < |alts| ==> alts[k] == alts[1..][k - 1];
      if exists k :: 0 <= k < |alts| && TryPrefix(s, p, alts[k], dotted).Some? {
        var k :| 0 <= k < |alts| && TryPrefix(s, p, alts[k], dotted).Some?;
        assert TryPrefix(s, p, alts[1..][k - 1], dotted).Some?;
      }
    }
  }

  /** Whether the expression matches at `p`, and where its letter is. */
  function MatchAt(s: string, p: nat, dotted: bool): (q: Option<nat>)
    ensures q.Some? ==> p <= q.value && IsCapture(s, q.value, dotted)
  {
    FirstAlternativeSpec(s, p, PREFIXES, dotted);
    FirstAlternative(s, p, PREFIXES, dotted)
  }

  /** No letter A-E follows the first character of a non-empty prefix. */
  lemma PrefixTails(k: nat, j: nat)
    requires 0 < k < |PREFIXES| && 0 < j < |PREFIXES[k]|
    ensures !IsChoice(PREFIXES[k][j]) && PREFIXES[k][j] != '.'
  {
  }

  /** The engine captures the first letter it meets, and it meets nothing
      that would have been captured on the way to it. */
  lemma MatchSkipsNothing(s: string, p: nat, dotted: bool)
    ensures MatchAt(s, p, dotted).None? ==> !IsCapture(s, p, dotted)
    ensures MatchAt(s, p, dotted).Some? ==>
      forall r :: p <= r < MatchAt(s, p, dotted).value ==> !IsCapture(s, r, dotted)
  {
    var m := MatchAt(s, p, dotted);
    EmptyPrefixMatch(s, p, dotted);
    if m.Some? && m.value > p {
      FirstAlternativeSpec(s, p, PREFIXES, dotted);
      var k :| 0 <= k < |PREFIXES| && TryPrefix(s, p, PREFIXES[k], dotted) == m;
      PrefixSkips(s, p, k, dotted);
    }
  }

  /** The empty alternative matches exactly where a letter is captured. */
  lemma EmptyPrefixMatch(s: string, p: nat, dotted: bool)
    ensures TryPrefix(s, p, PREFIXES[0], dotted).Some? <==> IsCapture(s, p, dotted)
    ensures IsCapture(s, p, dotted) ==> MatchAt(s, p, dotted) == Some(p)
  {
    assert PREFIXES[0] == "";
    if p <= |s| {
      assert s[p..p] == "";
    }
  }

  /** A non-empty alternative passes over no capturing position. */
  lemma PrefixSkips(s: string, p: nat, k: nat, dotted: bool)
    requires 0 < k < |PREFIXES| && TryPrefix(s, p, PREFIXES[k], dotted).Some?
    ensures forall r :: p < r < TryPrefix(s, p, PREFIXES[k], dotted).value ==> !IsCapture(s, r, dotted)
  {
    var q := TryPrefix(s, p, PREFIXES[k], dotted).value;
    forall r | p < r < q ensures !IsCapture(s, r, dotted) {
      assert s[r] == s[p..q][r - p];
      PrefixTails(k, r - p);
    }
  }

  /** `re.findall` from position `p`: the captured letters, in order. */
  function FindAllFrom(s: string, p: nat, dotted: bool): (r: seq<char>)
    ensures forall i :: 0 <= i < |r| ==> IsChoice(r[i])
    ensures p + |r| <= |s| || r == []
    decreases |s| - p
  {
    if p >= |s| then []
    else
      match MatchAt(s, p, dotted)
      case None => FindAllFrom(s, p + 1, dotted)
      case Some(q) => [s[q]] + FindAllFrom(s, q + (if dotted then 2 else 1), dotted)
  }

  /** `re.findall`: the captured letters, each one of A-E. */
  function FindAll(s: string, dotted: bool): (r: seq<char>)
    ensures forall i :: 0 <= i < |r| ==> IsChoice(r[i])
    ensures |r| <= |s|
  {
    FindAllFrom(s, 0, dotted)
  }

  /** The reference reading: every position that captures on its own. */
  function CapturesFrom(s: string, p: nat, dotted: bool): (r: seq<char>)
    decreases |s| - p
  {
    if p >= |s| then []
    else (if IsCapture(s, p, dotted) then [s[p]] else []) + CapturesFrom(s, p + 1, dotted)
  }

  lemma {:induction false} SkipNonCaptures(s: string, p: nat, q: nat, dotted: bool)
    requires p <= q <= |s|
    requires forall r :: p <= r < q ==> !IsCapture(s, r, dotted)
    ensures CapturesFrom(s, p, dotted) == CapturesFrom(s, q, dotted)
    decreases q - p
  {
    if p < q {
      SkipNonCaptures(s, p + 1, q, dotted);
    }
  }

  /** The reference reading from `p` starts with the first capturing
      position `q` and resumes after the letter and its dot. */
  lemma CapturesFromFirst(s: string, p: nat, q: nat, dotted: bool)
    requires p <= q && IsCapture(s, q, dotted)
    requires forall r :: p <= r < q ==> !IsCapture(s, r, dotted)
    ensures CapturesFrom(s, p, dotted) == [s[q]] + CapturesFrom(s, q + (if dotted then 2 else 1), dotted)
  {
    SkipNonCaptures(s, p, q, dotted);
    SkipNonCaptures(s, q + 1, q + (if dotted then 2 else 1), dotted);
  }

  /** One step of the scanner and of the reference reading from `p`: both
      skip a position where nothing matches, and both take the letter of a
      match and resume after it. */
  lemma ScanStep(s: string, p: nat, dotted: bool)
    requires p < |s|
    ensures MatchAt(s, p, dotted).None? ==>
      && FindAllFrom(s, p, dotted) == FindAllFrom(s, p + 1, dotted)
      && CapturesFrom(s, p, dotted) == CapturesFrom(s, p + 1, dotted)
    ensures MatchAt(s, p, dotted).Some? ==>
      var q := MatchAt(s, p, dotted).value;
      && FindAllFrom(s, p, dotted) == [s[q]] + FindAllFrom(s, q + (if dotted then 2 else 1), dotted)
      && CapturesFrom(s, p, dotted) == [s[q]] + CapturesFrom(s, q + (if dotted then 2 else 1), dotted)
  {
    MatchSkipsNothing(s, p, dotted);
    var m := MatchAt(s, p, dotted);
    if m.Some? {
      CapturesFromFirst(s, p, m.value, dotted);
    }
  }

  /** The scanner and the reference reading agree everywhere. */
  lemma {:induction false} FindAllIsCaptures(s: string, p: nat, dotted: bool)
    ensures FindAllFrom(s, p, dotted) == CapturesFrom(s, p, dotted)
    decreases |s| - p
  {
    if p < |s| {
      ScanStep(s, p, dotted);
      var m := MatchAt(s, p, dotted);
      if m.None? {
        FindAllIsCaptures(s, p + 1, dotted);
      } else {
        FindAllIsCaptures(s, m.value + (if dotted then 2 else 1), dotted);
      }
    }
  }

  lemma {:induction false} CapturesEmpty(s: string, p: nat, dotted: bool)
    ensures CapturesFrom(s, p, dotted) == [] <==> forall r :: p <= r < |s| ==> !IsCapture(s, r, dotted)
    decreases |s| - p
  {
    if p < |s| {
      CapturesEmpty(s, p + 1, dotted);
    }
  }

  lemma {:induction false} CapturesLast(s: string, p: nat, r: nat, dotted: bool)
    requires p <= r && IsCapture(s, r, dotted)
    requires forall r' :: r < r' < |s| ==> !IsCapture(s, r', dotted)
    ensures var c := CapturesFrom(s, p, dotted); c != [] && c[|c| - 1] == s[r]
    decreases r - p
  {
    if p == r {
      CapturesEmpty(s, p + 1, dotted);
    } else {
      CapturesLast(s, p + 1, r, dotted);
    }
  }

  const GOLD_LABELS: seq<string> := ["A.", "B.", "C.", "D.", "E."]

  /** `get_formated_answer`: the gold label by the question's index (Python
      indexing, so -1 is "E."), and the prediction read from the answer --
      the last dotted letter, else the last bare letter, each with a dot,
      else the answer unchanged. */
  function FormattedAnswer(gold: int, answer: string): (r: Result<(string, string), Error>)
    ensures r.Ok? <==> -5 <= gold < 5
    ensures r.Err? ==> r.error == IndexError
    ensures r.Ok? ==> r.value.1 == GOLD_LABELS[if gold < 0 then gold + 5 else gold]
  {
    if !(-5 <= gold < 5) then Err(IndexError)
    else
      var goldLabel := GOLD_LABELS[if gold < 0 then gold + 5 else gold];
      var dotted := FindAll(answer, true);
      var bare := FindAll(answer, false);
      var pred :=
        if |dotted| > 0 then [dotted[|dotted| - 1]] + "."
        else if |bare| > 0 then [bare[|bare| - 1]] + "."
        else answer;
      Ok((pred, goldLabel))
  }

  /** The prediction is the last letter A-E directly followed by a dot. */
  lemma PredictionLastDotted(gold: int, answer: string, r: nat)
    requires -5 <= gold < 5
    requires IsCapture(answer, r, true)
    requires forall r' :: r < r' < |answer| ==> !IsCapture(answer, r', true)
    ensures FormattedAnswer(gold, answer).value.0 == [answer[r], '.']
  {
    FindAllIsCaptures(answer, 0, true);
    CapturesLast(answer, 0, r, true);
  }

  /** Without a dotted letter, the prediction is the last letter A-E. */
  lemma PredictionLastBare(gold: int, answer: string, r: nat)
    requires -5 <= gold < 5
    requires forall r' :: 0 <= r' < |answer| ==> !IsCapture(answer, r', true)
    requires IsCapture(answer, r, false)
    requires forall r' :: r < r' < |answer| ==> !IsChoice(answer[r'])
    ensures FormattedAnswer(gold, answer).value.0 == [answer[r], '.']
  {
    FindAllIsCaptures(answer, 0, true);
    CapturesEmpty(answer, 0, true);
    FindAllIsCaptures(answer, 0, false);
    CapturesLast(answer, 0, r, false);
  }

  /** Without any letter A-E the answer is kept as it is. */
  lemma PredictionUnchanged(gold: int, answer: string)
    requires -5 <= gold < 5
    requires forall r :: 0 <= r < |answer| ==> !IsChoice(answer[r])
    ensures FormattedAnswer(gold, answer).value.0 == answer
  {
    FindAllIsCaptures(answer, 0, true);
    CapturesEmpty(answer, 0, true);
    FindAllIsCaptures(answer, 0, false);
    CapturesEmpty(answer, 0, false);
  }

  /** The prefixes do not change the reading: "Letra B." reads as "B.". */
  lemma PrefixedChoice()
    ensures FormattedAnswer(0, "Letra B.").Ok?
    ensures FormattedAnswer(0, "Letra B.").value == ("B.", "A.")
  {
    var s := "Letra B.";
    forall r' | 6 < r' < |s| ensures !IsCapture(s, r', true) {
      assert s[7] == '.';
    }
    PredictionLastDotted(0, s, 6);
  }
}
