/**
  The two prompt templates of the managed-endpoint adapters: the Llama-2
  instruction-tag template, which works on copies of the messages, and the
  Falcon "Role: content" transcript, which first inserts the default system
  message into the caller's list in place.  Both accept exactly the
  sessions that are a system message followed by user/assistant turns that
  alternate, start with user and end with user.
 */
module HFPrompts {
  import opened Wrappers
  import opened Exceptions
  import opened BaseWrapper
  import PyStr

  const B_INST: string := "[INST]"
  const E_INST: string := "[/INST]"
  const B_SYS: string := "<<SYS>>\n"
  const E_SYS: string := "\n<</SYS>>\n\n"
  const BOS: string := "<s>"
  const EOS: string := "</s>"
  const DEFAULT_SYSTEM_PROMPT: string :=
    "You are a helpful, respectful and honest assistant. Always answer as helpfully as possible, "
    + "while being safe. Your answers should not include any harmful, unethical, racist, sexist, "
    + "toxic, dangerous, or illegal content. Please ensure that your responses are socially "
    + "unbiased and positive in nature.\n\nIf a question does not make any sense, or is not "
    + "factually coherent, explain why instead of answering something not correct. If you don't "
    + "know the answer to a question, please don't share false information."

  const ALTERNATION_ERROR: string :=
    "model only supports 'system', 'user' and 'assistant' roles, "
    + "starting with 'system', then 'user' and alternating (u/a/u/a/u...)"

  const DEFAULT_SYSTEM_MESSAGE: ChatMessage := ChatMessage(System, DEFAULT_SYSTEM_PROMPT)

  /** The messages with the default system message put in front when the
      first one is not a system message (both templates do this). */
  function WithDefaultSystem(s: seq<ChatMessage>): (r: seq<ChatMessage>)
    ensures s != [] ==> r != [] && r[0].role == System
    ensures s != [] && s[0].role == System ==> r == s
    ensures s != [] && s[0].role != System ==> r[0] == DEFAULT_SYSTEM_MESSAGE && r[1..] == s
  {
    if s != [] && s[0].role != System then [DEFAULT_SYSTEM_MESSAGE] + s else s
  }

  /** Positions `offset, offset + 1, ...` of `s` alternate user/assistant,
      starting with user. */
  predicate AlternatesFrom(s: seq<ChatMessage>, offset: nat)
  {
    forall j :: offset <= j < |s| ==> s[j].role == (if (j - offset) % 2 == 0 then User else Assistant)
  }

  /** The role shape both templates accept: a system message, then turns
      that alternate user/assistant starting with user, ending with user. */
  predicate WellFormedChat(full: seq<ChatMessage>)
  {
    && |full| >= 2 && |full| % 2 == 0
    && full[0].role == System
    && forall i :: 1 <= i < |full| ==> full[i].role == (if i % 2 == 1 then User else Assistant)
  }

  lemma WellFormedChatIff(full: seq<ChatMessage>)
    ensures WellFormedChat(full)
        <==> |full| >= 2 && |full| % 2 == 0 && full[0].role == System && AlternatesFrom(full, 1)
  {
    if |full| >= 2 {
      forall i | 1 <= i < |full| ensures (i - 1) % 2 == 0 <==> i % 2 == 1 { }
    }
  }

  /** Python's slice `s[start::2]`. */
  function Step2<T>(s: seq<T>, start: nat): (r: seq<T>)
    ensures |r| == if start < |s| then (|s| - start + 1) / 2 else 0
    ensures forall i :: 0 <= i < |r| ==> start + 2 * i < |s| && r[i] == s[start + 2 * i]
  {
    if start >= |s| then []
    else seq((|s| - start + 1) / 2, i requires 0 <= i < (|s| - start + 1) / 2 => s[start + 2 * i])
  }

  /** Taking every second element from position 0 or 1 of `m` is that
      element followed by the same slice of `m[2..]`. */
  lemma Step2Cons<T>(m: seq<T>, k: nat)
    requires k <= 1 && |m| >= 2
    ensures Step2(m, k) == [m[k]] + Step2(m[2..], k)
  {
    var a := Step2(m, k);
    var b := Step2(m[2..], k);
    assert |a| == |b| + 1;
    forall i | 1 <= i < |a| ensures a[i] == b[i - 1] {
      assert m[2..][k + 2 * (i - 1)] == m[k + 2 * i];
    }
  }

  predicate AllHaveRole(s: seq<ChatMessage>, role: Role)
  {
    forall i :: 0 <= i < |s| ==> s[i].role == role
  }

  /** Every message of `s[start::2]` has `role` exactly when every position
      `start, start + 2, ...` of `s` holds that role. */
  lemma Step2AllHaveRole(s: seq<ChatMessage>, start: nat, role: Role)
    ensures AllHaveRole(Step2(s, start), role)
        <==> forall j :: start <= j < |s| && (j - start) % 2 == 0 ==> s[j].role == role
  {
    var r := Step2(s, start);
    if AllHaveRole(r, role) {
      forall j | start <= j < |s| && (j - start) % 2 == 0 ensures s[j].role == role {
        var i := (j - start) / 2;
        assert start + 2 * i == j;
        assert r[i] == s[j];
      }
    }
  }

  /** The role check both templates make with two slices:
      `all(m.role == "user" for m in s[offset::2])` and
      `all(m.role == "assistant" for m in s[offset + 1::2])`. */
  predicate SliceChecks(s: seq<ChatMessage>, offset: nat)
  {
    AllHaveRole(Step2(s, offset), User) && AllHaveRole(Step2(s, offset + 1), Assistant)
  }

  /** The two slice checks together are the positional alternation. */
  lemma SliceChecksIff(s: seq<ChatMessage>, offset: nat)
    ensures SliceChecks(s, offset) <==> AlternatesFrom(s, offset)
  {
    Step2AllHaveRole(s, offset, User);
    Step2AllHaveRole(s, offset + 1, Assistant);
    if AlternatesFrom(s, offset) {
      AlternatesGivesSlices(s, offset);
    }
    if SliceChecks(s, offset) {
      SlicesGiveAlternates(s, offset);
    }
  }

  lemma AlternatesGivesSlices(s: seq<ChatMessage>, offset: nat)
    requires AlternatesFrom(s, offset)
    ensures forall j :: offset + 1 <= j < |s| && (j - (offset + 1)) % 2 == 0 ==> s[j].role == Assistant
  {
    forall j | offset + 1 <= j < |s| && (j - (offset + 1)) % 2 == 0 ensures s[j].role == Assistant {
      var k := j - offset;
      assert k % 2 == 1;
    }
  }

  lemma SlicesGiveAlternates(s: seq<ChatMessage>, offset: nat)
    requires forall j :: offset <= j < |s| && (j - offset) % 2 == 0 ==> s[j].role == User
    requires forall j :: offset + 1 <= j < |s| && (j - (offset + 1)) % 2 == 0 ==> s[j].role == Assistant
    ensures AlternatesFrom(s, offset)
  {
    forall j | offset <= j < |s|
      ensures s[j].role == (if (j - offset) % 2 == 0 then User else Assistant)
    {
      var k := j - offset;
      if k % 2 == 1 {
        assert (j - (offset + 1)) % 2 == 0;
      }
    }
  }

  // ---------------------------------------------------------------------------
  // Llama-2 instruction-tag template
  // ---------------------------------------------------------------------------

  /** The dangling last turn: `<s>[INST] prompt [/INST]`. */
  function OpenBlock(prompt: ChatMessage): string
  {
    BOS + B_INST + " " + PyStr.Strip(prompt.content) + " " + E_INST
  }

  /** One closed turn: `<s>[INST] prompt [/INST] answer </s>`. */
  function InstBlock(prompt: ChatMessage, answer: ChatMessage): string
  {
    OpenBlock(prompt) + " " + PyStr.Strip(answer.content) + " " + EOS
  }

  /** Python's `zip(a, b)`. */
  function Zip<A, B>(a: seq<A>, b: seq<B>): (r: seq<(A, B)>)
    ensures |r| == if |a| < |b| then |a| else |b|
    ensures forall i :: 0 <= i < |r| ==> r[i] == (a[i], b[i])
  {
    var n := if |a| < |b| then |a| else |b|;
    seq(n, i requires 0 <= i < n => (a[i], b[i]))
  }

  /** `"".join(f"{BOS}{B_INST} {p} {E_INST} {a} {EOS}" for p, a in pairs)` */
  function ConcatBlocks(pairs: seq<(ChatMessage, ChatMessage)>): string
  {
    if pairs == [] then "" else InstBlock(pairs[0].0, pairs[0].1) + ConcatBlocks(pairs[1..])
  }

  /** The system message folded into the first turn. */
  function MergeSystem(full: seq<ChatMessage>): (merged: seq<ChatMessage>)
    requires |full| >= 2
    ensures |merged| == |full| - 1
    ensures merged[0].role == full[1].role
    ensures forall j :: 1 <= j < |merged| ==> merged[j] == full[j + 1]
  {
    [ChatMessage(full[1].role, B_SYS + full[0].content + E_SYS + full[1].content)] + full[2..]
  }

  /** The checks and rendering of the Llama-2 template on the list with the
      system text already merged into the first turn. */
  function Llama2Render(merged: seq<ChatMessage>): (r: Result<string, Error>)
    requires merged != []
    ensures r.Ok? <==> SliceChecks(merged, 0) && merged[|merged| - 1].role == User
  {
    if !SliceChecks(merged, 0) then
      Err(AssertionError(ALTERNATION_ERROR))
    else
      var body := ConcatBlocks(Zip(Step2(merged, 0), Step2(merged, 1)));
      var last := merged[|merged| - 1];
      if last.role != User then
        Err(AssertionError("Last message must be from user, got " + RoleName(last.role)))
      else
        Ok(body + OpenBlock(last))
  }

  /** `HFLlama2ChatCompletionWrapper._format_messages`. */
  function Llama2Prompt(messages: seq<ChatMessage>): (r: Result<string, Error>)
    ensures messages == [] ==> r == Err(IndexError)
    ensures r.Ok? ==> messages[|messages| - 1].role == User
  {
    if messages == [] then Err(IndexError)
    else
      var full := WithDefaultSystem(messages);
      if |full| < 2 then Err(IndexError)
      else Llama2Render(MergeSystem(full))
  }

  /** Reference definition of the closed turns: consecutive pairs. */
  function Turns(m: seq<ChatMessage>): string
  {
    if |m| < 2 then "" else InstBlock(m[0], m[1]) + Turns(m[2..])
  }

  /** The pairs of even and odd positions: the first two messages, then
      the pairs of the rest. */
  lemma ZipStep2Cons(m: seq<ChatMessage>)
    requires |m| >= 2
    ensures Zip(Step2(m, 0), Step2(m, 1)) == [(m[0], m[1])] + Zip(Step2(m[2..], 0), Step2(m[2..], 1))
  {
    Step2Cons(m, 0);
    Step2Cons(m, 1);
  }

  /** Zipping the even and odd positions pairs up consecutive messages. */
  lemma {:induction false} ZipBlocksAreTurns(m: seq<ChatMessage>)
    ensures ConcatBlocks(Zip(Step2(m, 0), Step2(m, 1))) == Turns(m)
  {
    var pairs := Zip(Step2(m, 0), Step2(m, 1));
    if |m| < 2 {
      assert pairs == [];
    } else {
      var rest := m[2..];
      ZipBlocksAreTurns(rest);
      ZipStep2Cons(m);
      var restPairs := Zip(Step2(rest, 0), Step2(rest, 1));
      assert pairs[1..] == restPairs;
    }
  }

  /** Merging the system text into the first turn moves every role one
      position earlier. */
  lemma MergeSystemAlternates(full: seq<ChatMessage>)
    requires |full| >= 2
    ensures AlternatesFrom(MergeSystem(full), 0) <==> AlternatesFrom(full, 1)
  {
    var merged := MergeSystem(full);
    assert forall j :: 0 <= j < |merged| ==> merged[j].role == full[j + 1].role;
    if AlternatesFrom(merged, 0) {
      forall i | 1 <= i < |full| ensures full[i].role == (if (i - 1) % 2 == 0 then User else Assistant) {
        assert merged[i - 1].role == full[i].role;
      }
    }
  }

  /** The Llama-2 template accepts exactly the well-formed sessions. */
  lemma Llama2Accepts(messages: seq<ChatMessage>)
    ensures Llama2Prompt(messages).Ok?
        <==> messages != [] && WellFormedChat(WithDefaultSystem(messages))
  {
    if messages != [] {
      var full := WithDefaultSystem(messages);
      WellFormedChatIff(full);
      if |full| >= 2 {
        var merged := MergeSystem(full);
        assert Llama2Prompt(messages) == Llama2Render(merged);
        SliceChecksIff(merged, 0);
        MergeSystemAlternates(full);
        if AlternatesFrom(full, 1) {
          assert merged[|merged| - 1].role == full[|full| - 1].role;
          assert full[|full| - 1].role == User <==> |full| % 2 == 0;
        }
      }
    }
  }

  lemma PrefixOfAppend(a: string, b: string, c: string)
    requires a <= b
    ensures a <= b + c
  {
    assert (b + c)[..|a|] == b[..|a|];
  }

  lemma PrefixAfterEmpty(a: string, b: string)
    requires b == []
    ensures a <= b + a
  {
    assert b + a == a;
  }

  /** The closed turns open with the first instruction. */
  lemma TurnsStartWithFirst(m: seq<ChatMessage>, tail: string)
    requires |m| >= 2
    ensures OpenBlock(m[0]) <= Turns(m) + tail
  {
    var x := OpenBlock(m[0]);
    var answer := PyStr.Strip(m[1].content);
    PrefixOfAppend(x, x, " ");
    PrefixOfAppend(x, x + " ", answer);
    PrefixOfAppend(x, x + " " + answer, " ");
    PrefixOfAppend(x, x + " " + answer + " ", EOS);
    assert Turns(m) == InstBlock(m[0], m[1]) + Turns(m[2..]);
    PrefixOfAppend(x, InstBlock(m[0], m[1]), Turns(m[2..]));
    PrefixOfAppend(x, Turns(m), tail);
  }

  /** A rendered Llama-2 prompt is the closed turns followed by the open last
      turn. */
  lemma Llama2RenderTurns(merged: seq<ChatMessage>)
    requires merged != [] && Llama2Render(merged).Ok?
    ensures Llama2Render(merged).value == Turns(merged) + OpenBlock(merged[|merged| - 1])
  {
    ZipBlocksAreTurns(merged);
  }

  /** The closed turns followed by the open last turn start with the first
      instruction, whether or not there are closed turns. */
  lemma TurnsThenOpenStartWithFirst(m: seq<ChatMessage>)
    requires m != []
    ensures OpenBlock(m[0]) <= Turns(m) + OpenBlock(m[|m| - 1])
  {
    if |m| >= 2 {
      TurnsStartWithFirst(m, OpenBlock(m[|m| - 1]));
    } else {
      PrefixAfterEmpty(OpenBlock(m[0]), Turns(m));
    }
  }

  /** A rendered Llama-2 prompt opens with the first turn's instruction. */
  lemma Llama2RenderShape(merged: seq<ChatMessage>)
    requires merged != [] && Llama2Render(merged).Ok?
    ensures Llama2Render(merged).value == Turns(merged) + OpenBlock(merged[|merged| - 1])
    ensures PyStr.StartsWith(Llama2Render(merged).value, OpenBlock(merged[0]))
  {
    Llama2RenderTurns(merged);
    TurnsThenOpenStartWithFirst(merged);
  }

  /** When it succeeds, the Llama-2 prompt is the closed turns followed by
      the open last turn, and its first instruction carries the system text
      merged into the first user message. */
  lemma Llama2Shape(messages: seq<ChatMessage>)
    ensures Llama2Prompt(messages).Ok? ==>
      var full := WithDefaultSystem(messages);
      && |full| >= 2
      && var merged := MergeSystem(full);
      && Llama2Prompt(messages).value == Turns(merged) + OpenBlock(merged[|merged| - 1])
      && merged[0].content == B_SYS + full[0].content + E_SYS + full[1].content
      && PyStr.StartsWith(Llama2Prompt(messages).value, OpenBlock(merged[0]))
  {
    if Llama2Prompt(messages).Ok? {
      Llama2RenderShape(MergeSystem(WithDefaultSystem(messages)));
    }
  }

  /** A system message and one user message give a single open turn with no
      closing answer marker. */
  lemma Llama2SingleTurn(system: string, user: string)
    ensures Llama2Prompt([ChatMessage(System, system), ChatMessage(User, user)])
         == Ok(OpenBlock(ChatMessage(User, B_SYS + system + E_SYS + user)))
  {
    var messages := [ChatMessage(System, system), ChatMessage(User, user)];
    var m := ChatMessage(User, B_SYS + system + E_SYS + user);
    var merged := MergeSystem(messages);
    assert merged == [m];
    assert Llama2Prompt(messages) == Llama2Render([m]);
    SliceChecksIff([m], 0);
    Llama2RenderTurns([m]);
    assert Turns([m]) == [];
    assert Turns([m]) + OpenBlock(m) == OpenBlock(m);
  }

  // ---------------------------------------------------------------------------
  // Falcon "Role: content" transcript
  // ---------------------------------------------------------------------------

  const ASSISTANT_CUE: string := "\nAssistant: "

  /** `f"{msg.role.capitalize()}: {msg.content}"` */
  function FalconLine(m: ChatMessage): string
  {
    PyStr.Capitalize(RoleName(m.role)) + ": " + m.content
  }

  function FalconLines(s: seq<ChatMessage>): (r: seq<string>)
    ensures |r| == |s|
    ensures forall i :: 0 <= i < |s| ==> r[i] == FalconLine(s[i])
  {
    seq(|s|, i requires 0 <= i < |s| => FalconLine(s[i]))
  }

  /** The checks and the rendering of `HFFalconChatCompletionWrapper._format_messages`,
      applied to the list after the default system message was inserted. */
  function FalconPrompt(s: seq<ChatMessage>): (r: Result<string, Error>)
    ensures s == [] ==> r == Err(IndexError)
    ensures r.Ok? ==> |s| >= 2 && s[0].role == System && s[|s| - 1].role == User
    ensures r.Ok? ==> PyStr.EndsWith(r.value, ASSISTANT_CUE)
  {
    if s == [] then Err(IndexError)
    else if s[0].role != System then
      Err(AssertionError("First message must be from system, got " + RoleName(s[0].role)))
    else if !SliceChecks(s, 1) then
      Err(AssertionError(ALTERNATION_ERROR))
    else if s[|s| - 1].role != User then
      Err(AssertionError("Last message must be from user, got " + RoleName(s[|s| - 1].role)))
    else
      Ok(PyStr.Join("\n", FalconLines(s)) + ASSISTANT_CUE)
  }

  /** `HFFalconChatCompletionWrapper._format_messages`: the default system
      message is inserted into the caller's list itself (and stays there
      even when a later check fails); the list is then checked and rendered. */
  method FormatFalcon(messages: MessageList) returns (r: Result<string, Error>)
    modifies messages
    ensures messages.items == WithDefaultSystem(old(messages.items))
    ensures r == FalconPrompt(messages.items)
  {
    if |messages.items| == 0 {
      return Err(IndexError);
    }
    if messages.items[0].role != System {
      messages.InsertFirst(DEFAULT_SYSTEM_MESSAGE);
    }
    r := FalconPrompt(messages.items);
  }

  /** The Falcon checks accept exactly a system message followed by a
      user-first alternation that ends with a user message. */
  lemma FalconPromptOk(s: seq<ChatMessage>)
    ensures FalconPrompt(s).Ok?
        <==> s != [] && s[0].role == System && AlternatesFrom(s, 1) && s[|s| - 1].role == User
  {
    SliceChecksIff(s, 1);
  }

  /** The Falcon template accepts exactly the well-formed sessions: the same
      ones as the Llama-2 template. */
  lemma FalconAccepts(messages: seq<ChatMessage>)
    ensures FalconPrompt(WithDefaultSystem(messages)).Ok?
        <==> messages != [] && WellFormedChat(WithDefaultSystem(messages))
  {
    var full := WithDefaultSystem(messages);
    FalconPromptOk(full);
    WellFormedChatIff(full);
    if messages != [] && AlternatesFrom(full, 1) {
      assert full[|full| - 1].role == User <==> |full| % 2 == 0;
    }
  }

  lemma TemplatesAcceptSameSessions(messages: seq<ChatMessage>)
    ensures Llama2Prompt(messages).Ok? <==> FalconPrompt(WithDefaultSystem(messages)).Ok?
  {
    Llama2Accepts(messages);
    FalconAccepts(messages);
  }

  /** A rendered Falcon prompt starts with the system line and ends with the
      assistant cue. */
  lemma FalconRenderShape(s: seq<ChatMessage>)
    requires FalconPrompt(s).Ok?
    ensures PyStr.EndsWith(FalconPrompt(s).value, ASSISTANT_CUE)
    ensures PyStr.StartsWith(FalconPrompt(s).value, "System: " + s[0].content)
  {
    var lines := FalconLines(s);
    SystemLine(s[0]);
    var joined := PyStr.Join("\n", lines);
    assert PyStr.StartsWith(joined, lines[0]);
    PrefixOfAppend("System: " + s[0].content, joined, ASSISTANT_CUE);
    var out := joined + ASSISTANT_CUE;
    assert out[|out| - |ASSISTANT_CUE|..] == ASSISTANT_CUE;
  }

  /** The system line is headed "System: ". */
  lemma SystemLine(m: ChatMessage)
    requires m.role == System
    ensures FalconLine(m) == "System: " + m.content
  {
    var lower := PyStr.Lower("ystem");
    assert lower == "ystem" by {
      forall i | 0 <= i < 5 ensures lower[i] == "ystem"[i] {
      }
    }
    var c := PyStr.Capitalize("system");
    assert c == [c[0]] + c[1..];
    assert c == "System";
  }

  /** When it succeeds, the Falcon prompt starts with the system line (the
      default one when the caller gave none) and ends with the assistant cue. */
  lemma FalconShape(messages: seq<ChatMessage>)
    requires FalconPrompt(WithDefaultSystem(messages)).Ok?
    ensures var out := FalconPrompt(WithDefaultSystem(messages)).value;
      && PyStr.EndsWith(out, ASSISTANT_CUE)
      && PyStr.StartsWith(out, "System: " + WithDefaultSystem(messages)[0].content)
      && (messages[0].role != System ==> PyStr.StartsWith(out, "System: " + DEFAULT_SYSTEM_MESSAGE.content))
  {
    FalconRenderShape(WithDefaultSystem(messages));
  }
}
