/** `PersonaCharacter` and `NarrationManager`: each turn reads the last
    three history entries, assembles a prompt, asks the language model for
    a completion, sanitises it, appends it to the history and returns it. */
module Persona {

  import opened Wrappers
  import opened Text
  import opened Sanitizer
  import opened Dialogue

  /** The language model, seen from outside: the completion text it returns
      for a prompt and a token budget. */
  type Engine = (string, nat) -> string

  /** A few-shot example `{situation, dialogue}`. */
  datatype Example = Example(situation: string, dialogue: string)

  /** How many history entries every turn reads. */
  const ContextTurns: int := 3

  // ---------------------------------------------------------------------
  // Prompt assembly

  /** The six rules every persona turn is given. */
  const ChatRules: string :=
    "다음 규칙을 반드시 따르세요:\n"
    + "1. 한 문장만 말하세요.\n"
    + "2. 한글만 사용하세요.\n"
    + "3. 다른 캐릭터를 언급하지 마세요.\n"
    + "4. 나레이션이나 지시문을 포함하지 마세요.\n"
    + "5. 감정을 직접적으로 표현하지 마세요.\n"
    + "6. 토끼는 '~야', '~지', '~네' 등의 반말을, 거북이는 '~입니다', '~습니다' 등의 존댓말을 사용하세요.\n"

  /** The rule block of a persona turn; it names the speaker first. */
  function ChatSystemPrompt(name: string, personaPrompt: string): string
  {
    "당신은 " + name + "입니다. " + personaPrompt + "\n" + ChatRules
  }

  function ExampleText(ex: Example): string
  {
    "상황: " + ex.situation + "\n대사: " + ex.dialogue
  }

  /** The examples joined by a single newline, as `"\n".join(...)` does. */
  function ExampleBlock(examples: seq<Example>): string
  {
    if |examples| == 0 then ""
    else if |examples| == 1 then ExampleText(examples[0])
    else ExampleText(examples[0]) + "\n" + ExampleBlock(examples[1..])
  }

  /** Between the blocks of two consecutive runs of examples there is exactly
      one newline and no blank line. */
  lemma {:induction false} ExampleBlockSplit(a: seq<Example>, b: seq<Example>)
    requires a != [] && b != []
    ensures ExampleBlock(a + b) == ExampleBlock(a) + "\n" + ExampleBlock(b)
    decreases |a|
  {
    assert (a + b)[0] == a[0];
    if |a| == 1 {
      assert (a + b)[1..] == b;
    } else {
      assert (a + b)[1..] == a[1..] + b;
      ExampleBlockSplit(a[1..], b);
    }
  }

  /** The prompt of `chat`: it opens by naming the speaker, the rule block is
      followed by the few-shot examples, and it ends with the recent context,
      the situation cue and the "next line" cue. */
  function ChatPrompt(name: string, personaPrompt: string, examples: seq<Example>, recentContext: string, inputText: string): (p: string)
    ensures StartsWith(p, "당신은 " + name + "입니다. " + personaPrompt + "\n")
    ensures StartsWith(p, ChatSystemPrompt(name, personaPrompt) + "\n\n대화 예시:\n" + ExampleBlock(examples))
    ensures EndsWith(p, "\n\n최근 대화:\n" + recentContext + "\n현재 상황: " + inputText + "\n다음 대사: ")
  {
    var head := "당신은 " + name + "입니다. " + personaPrompt + "\n";
    var tail := "\n\n최근 대화:\n" + recentContext + "\n현재 상황: " + inputText + "\n다음 대사: ";
    var system := ChatSystemPrompt(name, personaPrompt);
    var front := system + "\n\n대화 예시:\n" + ExampleBlock(examples);
    AppendBounds(head, ChatRules);
    AppendBounds(system, "\n\n대화 예시:\n" + ExampleBlock(examples));
    AppendBounds(front, tail);
    StartsWithTrans(front, system, head);
    StartsWithTrans(front + tail, front, head);
    front + tail
  }

  const NarratorSystemPrompt: string :=
    "당신은 이야기의 나레이터입니다.\n"
    + "다음 규칙을 반드시 따르세요:\n"
    + "1. 등장인물들의 대화를 바탕으로 상황을 자연스럽게 설명하세요.\n"
    + "2. 감정이나 분위기를 섬세하게 표현하세요.\n"
    + "3. 이야기의 흐름을 자연스럽게 이어가세요.\n"
    + "4. 한 문단으로 간결하게 설명하세요.\n"
    + "5. 객관적인 시점을 유지하세요.\n"

  /** The prompt of `narrate`: the narrator's rules, the recent context, the
      situation and the "narration" cue; no few-shot examples. */
  function NarrationPrompt(recentContext: string, situation: string): (p: string)
    ensures StartsWith(p, NarratorSystemPrompt + "\n\n")
    ensures EndsWith(p, "최근 대화:\n" + recentContext + "\n현재 상황: " + situation + "\n나레이션: ")
  {
    var head := NarratorSystemPrompt + "\n\n";
    var tail := "최근 대화:\n" + recentContext + "\n" + "현재 상황: " + situation + "\n" + "나레이션: ";
    var p := head + tail;
    assert p[..|head|] == head;
    assert p[|p| - |tail|..] == tail;
    assert tail == "최근 대화:\n" + recentContext + "\n현재 상황: " + situation + "\n나레이션: ";
    p
  }

  // ---------------------------------------------------------------------
  // What a turn produces

  /** The line `chat(inputText, maxTokens)` returns and records when the
      history before the turn is `history`. */
  function ChatReply(name: string, personaPrompt: string, examples: seq<Example>, model: Engine,
                     history: seq<Entry>, inputText: string, maxTokens: nat): string
  {
    var prompt := ChatPrompt(name, personaPrompt, examples, RecentContext(history, ContextTurns), inputText);
    CleanResponse(Strip(model(prompt, maxTokens)))
  }

  /** The line `narrate(situation)` returns and records. */
  function NarrationReply(model: Engine, history: seq<Entry>, situation: string): string
  {
    CleanResponse(Strip(model(NarrationPrompt(RecentContext(history, ContextTurns), situation), 150)))
  }

  class PersonaCharacter {
    const name: string
    const personaPrompt: string
    const exampleDialogues: seq<Example>
    const model: Engine
    const dialogueManager: DialogueManager

    constructor (name: string, personaPrompt: string, exampleDialogues: seq<Example>, model: Engine, dialogueManager: DialogueManager)
      ensures this.name == name && this.personaPrompt == personaPrompt
      ensures this.exampleDialogues == exampleDialogues && this.model == model
      ensures this.dialogueManager == dialogueManager
    {
      this.name := name;
      this.personaPrompt := personaPrompt;
      this.exampleDialogues := exampleDialogues;
      this.model := model;
      this.dialogueManager := dialogueManager;
    }

    /** One persona turn: the history grows by exactly one "dialogue" record
        of this speaker, whose text is the sanitised completion returned. */
    method Chat(inputText: string, maxTokens: nat := 150) returns (cleaned: string)
      modifies dialogueManager, dialogueManager.historyFile
      ensures cleaned == ChatReply(name, personaPrompt, exampleDialogues, model, old(dialogueManager.history), inputText, maxTokens)
      ensures dialogueManager.history == old(dialogueManager.history) + [Entry(name, cleaned, DialogueKind)]
      ensures dialogueManager.historyFile.contents == Some(dialogueManager.history)
    {
      var recentContext := dialogueManager.GetRecentContext(ContextTurns);
      var prompt := ChatPrompt(name, personaPrompt, exampleDialogues, recentContext, inputText);
      var responseText := Strip(model(prompt, maxTokens));
      cleaned := CleanResponse(responseText);
      dialogueManager.AddDialogue(name, cleaned);
    }
  }

  const NarratorName: string := "나레이션"

  const NarratorPersona: string :=
    "당신은 토끼와 거북이 이야기의 나레이터입니다. "
    + "등장인물들의 대화와 행동을 관찰하고 상황을 자연스럽게 설명합니다. "
    + "항상 객관적이고 차분한 톤을 유지하며, 이야기의 흐름을 자연스럽게 이끌어갑니다."

  const NarratorExamples: seq<Example> := [
    Example("토끼가 거북이를 만난 후", "거북이는 토끼의 제안을 듣고 천천히 고개를 끄덕였습니다."),
    Example("경주 중간 상황", "토끼는 자신의 빠른 속도를 과신한 나머지, 나무 그늘에서 휴식을 취하기로 했습니다.")
  ]

  /** The narrator reuses a persona character's state (name, model, shared
      history) and adds the `Narrate` turn. */
  class NarrationManager {
    const character: PersonaCharacter

    constructor (dialogueManager: DialogueManager, model: Engine)
      ensures character.name == NarratorName && character.personaPrompt == NarratorPersona
      ensures character.exampleDialogues == NarratorExamples && character.model == model
      ensures character.dialogueManager == dialogueManager
    {
      character := new PersonaCharacter(NarratorName, NarratorPersona, NarratorExamples, model, dialogueManager);
    }

    /** One narration turn: the history grows by exactly one "narration"
        record of the narrator, whose text is the sanitised completion
        returned. */
    method Narrate(situation: string) returns (cleaned: string)
      modifies character.dialogueManager, character.dialogueManager.historyFile
      ensures cleaned == NarrationReply(character.model, old(character.dialogueManager.history), situation)
      ensures character.dialogueManager.history == old(character.dialogueManager.history) + [Entry(character.name, cleaned, NarrationKind)]
      ensures character.dialogueManager.historyFile.contents == Some(character.dialogueManager.history)
    {
      var recentContext := character.dialogueManager.GetRecentContext(ContextTurns);
      var prompt := NarrationPrompt(recentContext, situation);
      var responseText := Strip(character.model(prompt, 150));
      cleaned := CleanResponse(responseText);
      character.dialogueManager.AddDialogue(character.name, cleaned, NarrationKind);
    }
  }

}
