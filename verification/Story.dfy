/** `simulate_story`: the rabbit-and-turtle story loop. Every iteration
    narrates the scene, reads the last three history entries, lets the
    phase machine decide on the next two situation cues (or stop), and lets
    the rabbit and then the turtle speak. */
module Story {

  import opened Wrappers
  import opened Text
  import opened Sanitizer
  import opened Dialogue
  import opened Persona

  // ---------------------------------------------------------------------
  // The cast

  const RabbitName: string := "토끼"
  const TurtleName: string := "거북이"

  const RabbitPersona: string :=
    "당신은 자신감 넘치고 빠른 토끼입니다. "
    + "성격이 경쾌하고 자신만만하며, 거북이를 약간 얕보는 태도를 보입니다. "
    + "반드시 반말을 사용하며 '~야', '~지', '~구나', '~네' 등의 어미를 씁니다. "
    + "'흐흐'나 '하하' 같은 웃음소리를 자주 넣습니다. "
    + "거북이의 느린 걸음을 놀리고 자신의 빠른 속도를 자랑합니다."

  const TurtlePersona: string :=
    "당신은 느리지만 지혜로운 거북이입니다. "
    + "반드시 존댓말을 사용하며 '~입니다', '~습니다', '~요' 등의 어미를 씁니다. "
    + "차분하고 신중한 성격이며, 토끼가 자신을 얕보더라도 결코 흥분하지 않습니다. "
    + "자신의 페이스를 잃지 않고 침착하게 대응하며, 빠른 것보다 꾸준한 것이 중요함을 강조합니다."

  const RabbitExamples: seq<Example> := [
    Example("거북이를 처음 만난 상황", "거북이야, 너 정말 느리게 걷는구나! 나랑 한번 경주해볼래?"),
    Example("자신의 빠른 속도를 자랑하는 상황", "흐흐, 내가 저기까지 가는 건 눈 깜빡할 사이라구!"),
    Example("거북이를 놀리는 상황", "이렇게 느린 걸음으로는 언제 도착할지 모르겠네! 흐흐!")
  ]

  const TurtleExamples: seq<Example> := [
    Example("토끼의 제안에 처음 반응하는 상황", "그렇게 서두르지 않아도 된다고 생각합니다만..."),
    Example("자신의 페이스를 유지하려는 상황", "천천히 가더라도 포기하지 않고 끝까지 가보도록 하죠."),
    Example("토끼의 자만심에 대응하는 상황", "빠르기만 한 것이 좋은 것은 아니라고 생각합니다.")
  ]

  /** What a persona character is built from. */
  datatype Role = Role(name: string, personaPrompt: string, examples: seq<Example>)

  /** The two speaking characters of the story. */
  datatype Cast = Cast(rabbit: Role, turtle: Role)

  /** The rabbit and the turtle as the program builds them; their names are
      the ones the loop below relies on. */
  function TheCast(): (c: Cast)
    ensures StoryCast(c)
  {
    Cast(Role(RabbitName, RabbitPersona, RabbitExamples), Role(TurtleName, TurtlePersona, TurtleExamples))
  }

  /** A cast whose speakers carry the story's two names; the loop below is
      stated for any such cast, whatever its persona texts and examples. */
  predicate StoryCast(cast: Cast)
  {
    cast.rabbit.name == RabbitName && cast.turtle.name == TurtleName
  }

  // ---------------------------------------------------------------------
  // Story state and the phase machine

  datatype Phase = Introduction | Development | Climax | Resolution

  /** The `story_state` dictionary. */
  datatype StoryState = StoryState(phase: Phase, location: string, currentSituation: string)

  /** The `rabbit_prompt` / `turtle_prompt` pair handed to the two personas. */
  datatype Cues = Cues(rabbit: string, turtle: string)

  /** What one iteration's phase check decides: go on in `phase` with
      `cues` (None while the cue variables are still unbound), or break. */
  datatype Outcome = Continue(phase: Phase, cues: Option<Cues>) | Exit

  const Location: string := "숲속"
  const OpeningSituation: string := "평화로운 오후"
  const AfterTalkSituation: string := "토끼와 거북이의 대화 이후"
  const ClosingSituation: string := "이야기의 교훈과 마무리"

  const IntroductionCues: Cues := Cues("거북이를 보고 경주를 제안하고 싶은 마음이 듭니다", "토끼의 갑작스러운 제안을 듣고 있습니다")
  const DevelopmentCues: Cues := Cues("경주가 시작되어 신나게 달리고 있습니다", "자신의 페이스로 천천히 전진합니다")
  const ClimaxCues: Cues := Cues("너무 앞서가서 잠시 쉬고 싶은 마음이 듭니다", "묵묵히 전진하고 있습니다")

  /** Keywords of the three guards. */
  const RaceWord: string := "경주"
  const AheadWord: string := "앞서"
  const FastWord: string := "빠르"
  const SleepWord: string := "잠"
  const RestWord: string := "쉬"

  /** Position of a phase in the story's order. */
  function Rank(p: Phase): nat
  {
    match p
    case Introduction => 0
    case Development => 1
    case Climax => 2
    case Resolution => 3
  }

  /** The phase check of one iteration, on the context read right after the
      narration. */
  function Advance(phase: Phase, context: string, cues: Option<Cues>): Outcome
  {
    match phase
    case Introduction =>
      Continue(Development, Some(IntroductionCues))
    case Development =>
      if Contains(context, RaceWord) then Continue(Climax, Some(DevelopmentCues)) else Continue(Development, cues)
    case Climax =>
      if Contains(context, AheadWord) || Contains(context, FastWord) then Continue(Resolution, Some(ClimaxCues)) else Continue(Climax, cues)
    case Resolution =>
      // the source assigns a last pair of cues here and then breaks; they are never used
      if Contains(context, SleepWord) || Contains(context, RestWord) then Exit else Continue(Resolution, cues)
  }

  /** The machine only moves forward, one phase at a time; the introduction
      always advances; a later phase advances exactly when its keyword is in
      the context, and otherwise keeps both phase and cues; each advance
      hands out the cue pair of the phase it leaves; the loop breaks only
      from the resolution phase, when it reads "잠" or "쉬". */
  lemma AdvanceMovesForward(phase: Phase, context: string, cues: Option<Cues>)
    ensures var r := Advance(phase, context, cues);
      && (r.Exit? <==> phase == Resolution && (Contains(context, SleepWord) || Contains(context, RestWord)))
      && (r.Continue? ==> Rank(phase) <= Rank(r.phase) <= Rank(phase) + 1)
      && (r.Continue? && r.phase == phase ==> r.cues == cues)
      && (r.Continue? && r.phase != phase ==> r.cues.Some?)
      && (phase == Introduction ==> r.cues == Some(IntroductionCues))
      && (phase == Development && r.Continue? && r.phase == Climax ==> r.cues == Some(DevelopmentCues))
      && (phase == Climax && r.Continue? && r.phase == Resolution ==> r.cues == Some(ClimaxCues))
      && (phase == Introduction ==> r.Continue? && r.phase == Development)
      && (phase == Development ==> r.Continue? && (r.phase == Climax <==> Contains(context, RaceWord)))
      && (phase == Climax ==> r.Continue? && (r.phase == Resolution <==> Contains(context, AheadWord) || Contains(context, FastWord)))
  {
  }

  /** The phases the loop goes through when the contexts it reads are
      `contexts`, for any sequence of contexts whatever produced them: they
      start at `phase` and never go back or skip a phase. `ContinueIteration`
      states the same step by step for the contexts a run of `Run` reads. */
  function PhaseTrace(phase: Phase, cues: Option<Cues>, contexts: seq<string>): (t: seq<Phase>)
    ensures |t| >= 1 && t[0] == phase
    ensures forall i :: 0 <= i < |t| - 1 ==> Rank(t[i]) <= Rank(t[i + 1]) <= Rank(t[i]) + 1
    decreases |contexts|
  {
    if contexts == [] then [phase]
    else
      AdvanceMovesForward(phase, contexts[0], cues);
      match Advance(phase, contexts[0], cues)
      case Exit => [phase]
      case Continue(next, nextCues) =>
        var rest := PhaseTrace(next, nextCues, contexts[1..]);
        assert forall i :: 1 <= i < |rest| ==> ([phase] + rest)[i] == rest[i - 1];
        [phase] + rest
  }


  // ---------------------------------------------------------------------
  // The loop, for any pair of turns

  /** The two kinds of turn the loop takes, as functions of the history
      before the turn: the narrator's line for a situation, and a role's
      line for a cue. */
  datatype Turns = Turns(narrate: (seq<Entry>, string) -> string, chat: (Role, seq<Entry>, string) -> string)

  /** The program's own turns: `narrate` and `chat` (with its default budget
      of 150 tokens) on the language model `model`. */
  function ProgramTurns(model: Engine): Turns
  {
    Turns((h: seq<Entry>, situation: string) => NarrationReply(model, h, situation),
          (role: Role, h: seq<Entry>, cue: string) => ChatReply(role.name, role.personaPrompt, role.examples, model, h, cue, 150))
  }

  /** Everything one iteration reads: the history, the story state and the
      cue variables. */
  datatype World = World(history: seq<Entry>, state: StoryState, cues: Option<Cues>)

  datatype RunResult = RunResult(history: seq<Entry>, phase: Phase, finished: bool)

  function Start(saved: Option<seq<Entry>>): World
  {
    World(Loaded(saved), StoryState(Introduction, Location, OpeningSituation), None)
  }

  /** `f"{location}에서 {current_situation}의 모습"` */
  function NarrationCue(s: StoryState): string
  {
    s.location + "에서 " + s.currentSituation + "의 모습"
  }

  /** The history after the iteration's narration of the current scene. */
  function Narrated(turns: Turns, w: World): (h: seq<Entry>)
    ensures |h| == |w.history| + 1 && h[..|w.history|] == w.history
    ensures h[|h| - 1] == Entry(NarratorName, turns.narrate(w.history, NarrationCue(w.state)), NarrationKind)
  {
    var h := w.history + [Entry(NarratorName, turns.narrate(w.history, NarrationCue(w.state)), NarrationKind)];
    assert h[..|w.history|] == w.history;
    h
  }

  /** The history after the rabbit and then the turtle have spoken to their
      cues; the turtle already sees the rabbit's line. */
  function Talked(turns: Turns, cast: Cast, h: seq<Entry>, cues: Cues): (h': seq<Entry>)
    ensures |h'| == |h| + 2 && h'[..|h|] == h
    ensures h'[|h|] == Entry(cast.rabbit.name, turns.chat(cast.rabbit, h, cues.rabbit), DialogueKind)
    ensures h'[|h| + 1] == Entry(cast.turtle.name, turns.chat(cast.turtle, h'[..|h| + 1], cues.turtle), DialogueKind)
  {
    var h2 := h + [Entry(cast.rabbit.name, turns.chat(cast.rabbit, h, cues.rabbit), DialogueKind)];
    var h3 := h2 + [Entry(cast.turtle.name, turns.chat(cast.turtle, h2, cues.turtle), DialogueKind)];
    assert h3[..|h|] == h && h3[..|h| + 1] == h2;
    h3
  }

  /** The phase check of the iteration that starts in `w`. */
  function Step(turns: Turns, w: World): Outcome
  {
    Advance(w.state.phase, RecentContext(Narrated(turns, w), ContextTurns), w.cues)
  }

  /** The world after an iteration that goes on in `phase` with `cues`: the
      two persona lines are recorded and the situation becomes the
      after-talk one. */
  function Next(turns: Turns, cast: Cast, w: World, phase: Phase, cues: Cues): World
  {
    World(Talked(turns, cast, Narrated(turns, w), cues), StoryState(phase, w.state.location, AfterTalkSituation), Some(cues))
  }

  /** The closing narration of the moral, after the history `h`. */
  function Closed(turns: Turns, h: seq<Entry>): (h': seq<Entry>)
    ensures |h'| == |h| + 1 && h'[..|h|] == h
    ensures h'[|h|] == Entry(NarratorName, turns.narrate(h, ClosingSituation), NarrationKind)
  {
    var h' := h + [Entry(NarratorName, turns.narrate(h, ClosingSituation), NarrationKind)];
    assert h'[..|h|] == h;
    h'
  }

  /** At most `fuel` iterations of the `while True` loop from `w`, followed
      by the closing narration if the loop breaks. */
  function Run(turns: Turns, cast: Cast, w: World, fuel: nat): RunResult
    requires w.state.phase == Introduction || w.cues.Some?
    decreases fuel, 2
  {
    if fuel == 0 then RunResult(w.history, w.state.phase, false)
    else Iterate(turns, cast, w, fuel)
  }

  /** One iteration from `w`: the narration, then the rest of the iteration. */
  function Iterate(turns: Turns, cast: Cast, w: World, fuel: nat): RunResult
    requires w.state.phase == Introduction || w.cues.Some?
    requires fuel > 0
    decreases fuel, 1
  {
    Checked(turns, cast, w, Narrated(turns, w), fuel)
  }

  /** The rest of the iteration once the narration has made the history
      `h`: the phase check on the recent context of `h`, then either the
      closing narration or the two persona lines and the next iteration. */
  function Checked(turns: Turns, cast: Cast, w: World, h: seq<Entry>, fuel: nat): RunResult
    requires w.state.phase == Introduction || w.cues.Some?
    requires fuel > 0
    decreases fuel, 0
  {
    var context := RecentContext(h, ContextTurns);
    AdvanceMovesForward(w.state.phase, context, w.cues);
    match Advance(w.state.phase, context, w.cues)
    case Exit => RunResult(Closed(turns, h), w.state.phase, true)
    case Continue(phase, cues) =>
      Run(turns, cast, World(Talked(turns, cast, h, cues.value), StoryState(phase, w.state.location, AfterTalkSituation), cues), fuel - 1)
  }

  /** One iteration that breaks: the result is the closing history. */
  lemma RunExits(turns: Turns, cast: Cast, w: World, fuel: nat)
    requires w.state.phase == Introduction || w.cues.Some?
    requires fuel > 0 && Step(turns, w).Exit?
    ensures Run(turns, cast, w, fuel) == RunResult(Closed(turns, Narrated(turns, w)), w.state.phase, true)
  {
    assert Run(turns, cast, w, fuel) == Iterate(turns, cast, w, fuel) == Checked(turns, cast, w, Narrated(turns, w), fuel);
  }

  /** One iteration that goes on: the rest of the run starts from `Next`. */
  lemma RunContinues(turns: Turns, cast: Cast, w: World, fuel: nat, phase: Phase, cues: Cues)
    requires w.state.phase == Introduction || w.cues.Some?
    requires fuel > 0 && Step(turns, w) == Continue(phase, Some(cues))
    ensures Run(turns, cast, w, fuel) == Run(turns, cast, Next(turns, cast, w, phase, cues), fuel - 1)
  {
    assert Run(turns, cast, w, fuel) == Iterate(turns, cast, w, fuel) == Checked(turns, cast, w, Narrated(turns, w), fuel);
  }

  lemma PrefixOfPrefix<T>(a: seq<T>, b: seq<T>, c: seq<T>)
    requires |b| <= |a| && a[..|b|] == b
    requires |c| <= |b| && b[..|c|] == c
    ensures a[..|c|] == c
  {
    assert a[..|c|] == a[..|b|][..|c|];
  }

  /** An iteration that goes on keeps the history it started from and adds
      three records. */
  lemma NextExtends(turns: Turns, cast: Cast, w: World, phase: Phase, cues: Cues)
    ensures var w' := Next(turns, cast, w, phase, cues);
      |w'.history| == |w.history| + 3 && w'.history[..|w.history|] == w.history
  {
    var w' := Next(turns, cast, w, phase, cues);
    PrefixOfPrefix(w'.history, Narrated(turns, w), w.history);
  }

  /** How a run that breaks ends, relative to the history `before` it
      started from: from the resolution phase, keeping `before`, with the
      iteration's narration and then the closing narration. */
  ghost predicate ClosesWithNarration(turns: Turns, before: seq<Entry>, r: RunResult)
  {
    && r.phase == Resolution
    && |r.history| >= |before| + 2
    && r.history[..|before|] == before
    && r.history[|r.history| - 2].speaker == NarratorName
    && r.history[|r.history| - 2].kind == NarrationKind
    && r.history[|r.history| - 1] == Entry(NarratorName, turns.narrate(r.history[..|r.history| - 1], ClosingSituation), NarrationKind)
  }

  /** The iteration that breaks closes with the narration of the moral,
      keeping `before`, a prefix of the history it starts from. */
  lemma ExitIteration(turns: Turns, cast: Cast, before: seq<Entry>, w: World, fuel: nat)
    requires w.state.phase == Introduction || w.cues.Some?
    requires |before| <= |w.history| && w.history[..|before|] == before
    requires fuel > 0 && Step(turns, w).Exit?
    ensures ClosesWithNarration(turns, before, Run(turns, cast, w, fuel))
  {
    RunExits(turns, cast, w, fuel);
    var h1 := Narrated(turns, w);
    var h := Closed(turns, h1);
    AdvanceMovesForward(w.state.phase, RecentContext(h1, ContextTurns), w.cues);
    PrefixOfPrefix(h, h1, w.history);
    PrefixOfPrefix(h, w.history, before);
    assert h[|h| - 2] == h1[|h1| - 1];
  }

  /** The iteration that goes on: the run continues, in the same phase or
      the next one, from a world whose history extends the current one by
      three records. */
  lemma ContinueIteration(turns: Turns, cast: Cast, w: World, fuel: nat) returns (w': World)
    requires w.state.phase == Introduction || w.cues.Some?
    requires fuel > 0 && Step(turns, w).Continue?
    ensures w'.state.phase == Introduction || w'.cues.Some?
    ensures Rank(w.state.phase) <= Rank(w'.state.phase) <= Rank(w.state.phase) + 1
    ensures Run(turns, cast, w, fuel) == Run(turns, cast, w', fuel - 1)
    ensures |w'.history| == |w.history| + 3 && w'.history[..|w.history|] == w.history
  {
    var step := Step(turns, w);
    AdvanceMovesForward(w.state.phase, RecentContext(Narrated(turns, w), ContextTurns), w.cues);
    RunContinues(turns, cast, w, fuel, step.phase, step.cues.value);
    w' := Next(turns, cast, w, step.phase, step.cues.value);
    NextExtends(turns, cast, w, step.phase, step.cues.value);
  }

  /** If the loop breaks, it breaks from the resolution phase, no persona
      speaks in that iteration, and one closing narration follows the
      iteration's own narration; every record of `before`, a prefix of the
      history the run starts from, is kept. */
  lemma {:induction false} ExitClosesWithNarration(turns: Turns, cast: Cast, before: seq<Entry>, w: World, fuel: nat)
    requires w.state.phase == Introduction || w.cues.Some?
    requires |before| <= |w.history| && w.history[..|before|] == before
    ensures Run(turns, cast, w, fuel).finished ==> ClosesWithNarration(turns, before, Run(turns, cast, w, fuel))
    decreases fuel
  {
    if fuel > 0 {
      if Step(turns, w).Exit? {
        ExitIteration(turns, cast, before, w, fuel);
      } else {
        var w' := ContinueIteration(turns, cast, w, fuel);
        PrefixOfPrefix(w'.history, w.history, before);
        ExitClosesWithNarration(turns, cast, before, w', fuel - 1);
      }
    }
  }

  // ---------------------------------------------------------------------
  // Why the story never gets past the development phase

  /** Characters that can appear in the recent context once its window
      holds only lines this program wrote: sanitised text, the quotes around
      it, the two persona names and the ": " and line-break glue. */
  predicate InContextAlphabet(c: char)
  {
    InAllowList(c) || c == '"' || c == ':' || c == '\n' || c in RabbitName || c in TurtleName
  }

  /** Allow-list characters and double quotes only, as in a sanitised line. */
  predicate CleanLine(t: string)
    decreases |t|
  {
    t == [] || ((InAllowList(t[0]) || t[0] == '"') && CleanLine(t[1..]))
  }

  lemma {:induction false} CleanLineFromChars(t: string)
    requires forall i :: 0 <= i < |t| ==> InAllowList(t[i]) || t[i] == '"'
    ensures CleanLine(t)
    decreases |t|
  {
    if t != [] {
      assert forall i :: 0 <= i < |t[1..]| ==> t[1..][i] == t[i + 1];
      CleanLineFromChars(t[1..]);
    }
  }

  lemma {:induction false} CleanLineChars(t: string)
    requires CleanLine(t)
    ensures forall c :: c in t ==> InAllowList(c) || c == '"'
    decreases |t|
  {
    if t != [] {
      CleanLineChars(t[1..]);
      assert forall c :: c in t ==> c == t[0] || c in t[1..];
    }
  }

  /** Turns whose every line, narrator's or role's, is a clean line. */
  ghost predicate Sanitising(turns: Turns)
  {
    && (forall h, situation :: CleanLine(turns.narrate(h, situation)))
    && (forall role, h, cue :: CleanLine(turns.chat(role, h, cue)))
  }

  /** A record written by one of the story's turns. */
  predicate Spoken(e: Entry)
  {
    (e.kind == NarrationKind || e.speaker == RabbitName || e.speaker == TurtleName) && CleanLine(e.text)
  }

  /** A sanitised line consists of allow-list characters and its two quotes. */
  lemma CleanResponseIsCleanLine(raw: string)
    ensures CleanLine(CleanResponse(raw))
  {
    var r := CleanResponse(raw);
    forall i | 0 <= i < |r|
      ensures InAllowList(r[i]) || r[i] == '"'
    {
      if 0 < i < |r| - 1 {
        assert r[i] == Inner(r)[i - 1];
      }
    }
    CleanLineFromChars(r);
  }

  /** The program's turns sanitise every line they produce. */
  lemma ProgramTurnsSanitise(model: Engine)
    ensures Sanitising(ProgramTurns(model))
  {
    var turns := ProgramTurns(model);
    forall h, situation
      ensures CleanLine(turns.narrate(h, situation))
    {
      NarrationReplyIsCleanLine(model, h, situation);
    }
    forall role, h, cue
      ensures CleanLine(turns.chat(role, h, cue))
    {
      ChatReplyIsCleanLine(model, role, h, cue);
    }
  }

  lemma NarrationReplyIsCleanLine(model: Engine, h: seq<Entry>, situation: string)
    ensures CleanLine(NarrationReply(model, h, situation))
  {
    CleanResponseIsCleanLine(Strip(model(NarrationPrompt(RecentContext(h, ContextTurns), situation), 150)));
  }

  lemma ChatReplyIsCleanLine(model: Engine, role: Role, h: seq<Entry>, cue: string)
    ensures CleanLine(ChatReply(role.name, role.personaPrompt, role.examples, model, h, cue, 150))
  {
    CleanResponseIsCleanLine(Strip(model(ChatPrompt(role.name, role.personaPrompt, role.examples, RecentContext(h, ContextTurns), cue), 150)));
  }

  lemma {:induction false} SpokenContextAlphabet(es: seq<Entry>)
    requires forall i :: 0 <= i < |es| ==> Spoken(es[i])
    ensures forall c :: c in RenderAll(es) ==> InContextAlphabet(c)
    decreases |es|
  {
    if es != [] {
      var e := es[0];
      SpokenContextAlphabet(es[1..]);
      CleanLineChars(e.text);
      assert forall c :: c in Render(e) ==> InContextAlphabet(c);
    }
  }

  /** The syllables 경, 앞, 빠, 잠 and 쉬 are neither on the allow-list nor
      in a persona name. */
  lemma KeywordSyllablesOutside()
    ensures !InContextAlphabet('경') && !InContextAlphabet('앞') && !InContextAlphabet('빠')
    ensures !InContextAlphabet('잠') && !InContextAlphabet('쉬')
  {
  }

  /** None of the five guard keywords can occur in a context rendered from
      lines this program wrote: each contains a syllable that is neither on
      the allow-list nor in a persona name. */
  lemma NoKeywordInSpokenContext(es: seq<Entry>)
    requires forall i :: 0 <= i < |es| ==> Spoken(es[i])
    ensures var context := RenderAll(es);
      && !Contains(context, RaceWord)
      && !Contains(context, AheadWord) && !Contains(context, FastWord)
      && !Contains(context, SleepWord) && !Contains(context, RestWord)
  {
    var context := RenderAll(es);
    SpokenContextAlphabet(es);
    KeywordSyllablesOutside();
    MissingCharNotContained(context, RaceWord, '경');
    MissingCharNotContained(context, AheadWord, '앞');
    MissingCharNotContained(context, FastWord, '빠');
    MissingCharNotContained(context, SleepWord, '잠');
    MissingCharNotContained(context, RestWord, '쉬');
  }

  /** The state of the loop from its second iteration on: still in
      development, cues bound, and the last two records are this program's
      own rabbit and turtle lines. */
  predicate StuckInDevelopment(w: World)
  {
    && w.state.phase == Development
    && w.cues.Some?
    && |w.history| >= 2
    && Spoken(w.history[|w.history| - 2])
    && Spoken(w.history[|w.history| - 1])
  }

  /** The context the phase check reads: the two records before the
      narration, then the narration. */
  lemma NarratedWindow(turns: Turns, w: World)
    requires |w.history| >= 2
    ensures var h1 := Narrated(turns, w);
      RecentContext(h1, ContextTurns) == RenderAll([w.history[|w.history| - 2], w.history[|w.history| - 1], h1[|h1| - 1]])
  {
    var h1 := Narrated(turns, w);
    assert TailStart(|h1|, ContextTurns) == |h1| - 3;
    assert h1[|h1| - 3..] == [w.history[|w.history| - 2], w.history[|w.history| - 1], h1[|h1| - 1]];
  }

  /** From a stuck state the phase check finds no "경주" and keeps both
      phase and cues. */
  lemma StuckStepStaysInDevelopment(turns: Turns, w: World)
    requires Sanitising(turns) && StuckInDevelopment(w)
    ensures Step(turns, w) == Continue(Development, w.cues)
  {
    var h1 := Narrated(turns, w);
    assert Spoken(h1[|h1| - 1]);
    NarratedWindow(turns, w);
    var window := [w.history[|w.history| - 2], w.history[|w.history| - 1], h1[|h1| - 1]];
    NoKeywordInSpokenContext(window);
  }

  /** An iteration that lands in the development phase leaves the loop
      stuck there. */
  lemma NextIsStuck(turns: Turns, cast: Cast, w: World, cues: Cues)
    requires Sanitising(turns) && StoryCast(cast)
    ensures StuckInDevelopment(Next(turns, cast, w, Development, cues))
  {
    var w' := Next(turns, cast, w, Development, cues);
    var h1 := Narrated(turns, w);
    assert Spoken(w'.history[|h1|]);
    assert Spoken(w'.history[|h1| + 1]);
  }

  /** A run of `n` iterations that has not finished: it is in the
      development phase and has added three records per iteration to
      `before`. */
  ghost predicate DevelopsWithoutEnd(before: seq<Entry>, r: RunResult, n: nat)
  {
    && !r.finished
    && r.phase == Development
    && |r.history| == |before| + 3 * n
    && r.history[..|before|] == before
  }

  /** One iteration from a stuck state: it goes on, stays stuck and adds
      three records. */
  lemma StuckIteration(turns: Turns, cast: Cast, w: World, fuel: nat)
    requires Sanitising(turns) && StoryCast(cast) && StuckInDevelopment(w) && fuel > 0
    ensures var w' := Next(turns, cast, w, Development, w.cues.value);
      && Run(turns, cast, w, fuel) == Run(turns, cast, w', fuel - 1)
      && StuckInDevelopment(w')
      && |w'.history| == |w.history| + 3 && w'.history[..|w.history|] == w.history
  {
    StuckStepStaysInDevelopment(turns, w);
    RunContinues(turns, cast, w, fuel, Development, w.cues.value);
    NextIsStuck(turns, cast, w, w.cues.value);
    NextExtends(turns, cast, w, Development, w.cues.value);
  }

  /** From a stuck state reached after `k` iterations from `before`, the run
      never finishes and adds three records per iteration. */
  lemma {:induction false} StuckRunStaysStuck(turns: Turns, cast: Cast, before: seq<Entry>, k: nat, w: World, fuel: nat)
    requires Sanitising(turns) && StoryCast(cast) && StuckInDevelopment(w)
    requires |w.history| == |before| + 3 * k && w.history[..|before|] == before
    ensures DevelopsWithoutEnd(before, Run(turns, cast, w, fuel), k + fuel)
    decreases fuel
  {
    if fuel > 0 {
      StuckIteration(turns, cast, w, fuel);
      var w' := Next(turns, cast, w, Development, w.cues.value);
      PrefixOfPrefix(w'.history, w.history, before);
      StuckRunStaysStuck(turns, cast, before, k + 1, w', fuel - 1);
    }
  }

  /** Whatever history was saved, a story told by sanitising turns never
      finishes: after the first iteration it stays in the development phase
      for good, adding three records per iteration to the saved ones. */
  lemma StoryNeverEnds(turns: Turns, cast: Cast, saved: Option<seq<Entry>>, fuel: nat)
    requires Sanitising(turns) && StoryCast(cast)
    ensures var r := Run(turns, cast, Start(saved), fuel);
      && !r.finished
      && r.phase == (if fuel == 0 then Introduction else Development)
      && |r.history| == |Loaded(saved)| + 3 * fuel
      && r.history[..|Loaded(saved)|] == Loaded(saved)
  {
    var w := Start(saved);
    if fuel > 0 {
      assert Step(turns, w) == Continue(Development, Some(IntroductionCues));
      RunContinues(turns, cast, w, fuel, Development, IntroductionCues);
      NextIsStuck(turns, cast, w, IntroductionCues);
      NextExtends(turns, cast, w, Development, IntroductionCues);
      var w' := Next(turns, cast, w, Development, IntroductionCues);
      StuckRunStaysStuck(turns, cast, w.history, 1, w', fuel - 1);
    } else {
      assert w.history[..|w.history|] == w.history;
    }
  }

  // ---------------------------------------------------------------------
  // The loop itself

  /** The loop of `simulate_story` for a given cast, run for at most `fuel`
      iterations on a history file whose contents are `saved`; it computes
      exactly `Run` with the program's turns. */
  method Tell(model: Engine, cast: Cast, saved: Option<seq<Entry>>, fuel: nat)
    returns (history: seq<Entry>, phase: Phase, finished: bool)
    ensures RunResult(history, phase, finished) == Run(ProgramTurns(model), cast, Start(saved), fuel)
  {
    var file := new HistoryFile(saved);
    var dialogueManager := new DialogueManager(file);
    var rabbit := new PersonaCharacter(cast.rabbit.name, cast.rabbit.personaPrompt, cast.rabbit.examples, model, dialogueManager);
    var turtle := new PersonaCharacter(cast.turtle.name, cast.turtle.personaPrompt, cast.turtle.examples, model, dialogueManager);
    var narrator := new NarrationManager(dialogueManager, model);
    ghost var turns := ProgramTurns(model);

    var storyState := StoryState(Introduction, Location, OpeningSituation);
    var cues: Option<Cues> := None;
    ghost var start := World(dialogueManager.history, storyState, cues);
    assert start == Start(saved);
    finished := false;
    var iteration := 0;
    while iteration < fuel
      invariant 0 <= iteration <= fuel
      invariant storyState.phase == Introduction || cues.Some?
      invariant !finished
      invariant Run(turns, cast, World(dialogueManager.history, storyState, cues), fuel - iteration) == Run(turns, cast, start, fuel)
    {
      ghost var w := World(dialogueManager.history, storyState, cues);
      var narration := narrator.Narrate(NarrationCue(storyState));
      assert dialogueManager.history == Narrated(turns, w);
      var recentContext := dialogueManager.GetRecentContext(ContextTurns);
      var outcome := Advance(storyState.phase, recentContext, cues);
      AdvanceMovesForward(storyState.phase, recentContext, cues);
      assert outcome == Step(turns, w);
      if outcome.Exit? {
        RunExits(turns, cast, w, fuel - iteration);
        finished := true;
        break;
      }
      storyState := storyState.(phase := outcome.phase);
      cues := outcome.cues;
      ghost var h1 := dialogueManager.history;
      var rabbitLine := rabbit.Chat(cues.value.rabbit);
      ghost var h2 := dialogueManager.history;
      var turtleLine := turtle.Chat(cues.value.turtle);
      assert h2 == h1 + [Entry(cast.rabbit.name, turns.chat(cast.rabbit, h1, cues.value.rabbit), DialogueKind)];
      assert dialogueManager.history == Talked(turns, cast, h1, cues.value);
      storyState := storyState.(currentSituation := AfterTalkSituation);
      RunContinues(turns, cast, w, fuel - iteration, outcome.phase, cues.value);
      iteration := iteration + 1;
    }
    if finished {
      var finalNarration := narrator.Narrate(ClosingSituation);
    }
    history := dialogueManager.history;
    phase := storyState.phase;
  }

  /** `simulate_story` with the rabbit and the turtle, cut off after `fuel`
      iterations: it never finishes, and from the first iteration on it is
      in the development phase. */
  method SimulateStory(model: Engine, saved: Option<seq<Entry>>, fuel: nat)
    returns (history: seq<Entry>, phase: Phase, finished: bool)
    ensures RunResult(history, phase, finished) == Run(ProgramTurns(model), TheCast(), Start(saved), fuel)
    ensures !finished && phase == (if fuel == 0 then Introduction else Development)
    ensures |history| == |Loaded(saved)| + 3 * fuel && history[..|Loaded(saved)|] == Loaded(saved)
  {
    history, phase, finished := Tell(model, TheCast(), saved, fuel);
    ProgramTurnsSanitise(model);
    StoryNeverEnds(ProgramTurns(model), TheCast(), saved, fuel);
  }

}
