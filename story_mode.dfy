/** The story mode page: a transcript of story segments that grows by one
    user segment when a prompt is submitted and by one AI segment when the
    story generator answers or fails. */
module StoryMode {
  import opened Wrappers
  import opened Text

  datatype Role = User | Ai

  /** One entry of the transcript. The timestamp is the clock reading the
      segment was created with. */
  datatype Segment = Segment(id: string, role: Role, content: string, timestamp: nat)

  /** A canned prompt offered beside the input box; `caption` is its button label. */
  datatype QuickPrompt = QuickPrompt(id: string, caption: string, prompt: string)

  /** What the story generator gave back: a response whose `story` field may
      be missing (`None`), or a thrown error. */
  datatype StoryOutcome = Generated(story: Option<string>) | Failed

  const IntroText := "Welcome to Story Mode! Tell me a premise, and I'll help you craft a unique story."
  const FallbackText := "I'm sorry, I couldn't generate a story segment at this time. Please try again."
  const ErrorText := "An error occurred while generating the story. Please try again later."

  const QuickPrompts: seq<QuickPrompt> := [
    QuickPrompt("1", "Fantasy Adventure",
      "Write a fantasy adventure "
      + "story about a young wizard discovering a hidden power."),
    QuickPrompt("2", "Sci-Fi Mystery",
      "Generate a sci-fi mystery "
      + "set on a distant space station where something has gone terribly wrong."),
    QuickPrompt("3", "Historical Drama",
      "Create a historical drama "
      + "about a pivotal moment in ancient Indian history."),
    QuickPrompt("4", "Modern Romance",
      "Develop a modern romance "
      + "story about two strangers who meet in an unexpected way in a bustling city.")
  ]

  /** Every canned prompt can be submitted as it stands, and the prompts
      have distinct ids. */
  lemma QuickPromptsSubmittable()
    ensures forall i :: 0 <= i < |QuickPrompts| ==> !IsBlank(QuickPrompts[i].prompt)
    ensures forall i, j :: 0 <= i < j < |QuickPrompts| ==> QuickPrompts[i].id != QuickPrompts[j].id
  {
    assert !IsWhitespace(QuickPrompts[0].prompt[0]);
    assert !IsWhitespace(QuickPrompts[1].prompt[0]);
    assert !IsWhitespace(QuickPrompts[2].prompt[0]);
    assert !IsWhitespace(QuickPrompts[3].prompt[0]);
  }

  /** The segment the transcript starts with. */
  function IntroSegment(now: nat): (s: Segment)
    ensures s.role == Ai && s.content == IntroText && s.timestamp == now
    ensures !AllDigits(s.id)
  {
    var s := Segment("intro", Ai, IntroText, now);
    assert !IsDigit(s.id[0]);
    s
  }

  /** The segment for a submitted prompt: its id is the clock reading in
      decimal digits, and its content is the prompt exactly as typed. */
  function UserSegment(text: string, now: nat): (s: Segment)
    ensures s.role == User && s.content == text && s.timestamp == now
    ensures |s.id| >= 1 && AllDigits(s.id) && ParseDigits(s.id) == now
  {
    ParseNatToString(now);
    Segment(NatToString(now), User, text, now)
  }

  /** `aiResponse.story || FallbackText`: a missing or empty story gives way
      to the fixed apology. */
  function StoryText(story: Option<string>): (text: string)
    ensures story.Some? && story.value != "" ==> text == story.value
    ensures story.None? || story.value == "" ==> text == FallbackText
  {
    match story
    case Some(t) => if t != "" then t else FallbackText
    case None => FallbackText
  }

  /** The AI segment for a generator outcome: the story (or the apology)
      under an id ending in "-ai", or the fixed error text under an id
      ending in "-error"; in both cases the id starts with the clock's digits. */
  function ResponseSegment(outcome: StoryOutcome, now: nat): (s: Segment)
    ensures s.role == Ai && s.timestamp == now
    ensures outcome.Generated? ==>
      s.content == StoryText(outcome.story) && EndsWith(s.id, "-ai")
      && s.id[..|s.id| - 3] == NatToString(now)
    ensures outcome.Failed? ==>
      s.content == ErrorText && EndsWith(s.id, "-error")
      && s.id[..|s.id| - 6] == NatToString(now)
  {
    match outcome
    case Generated(story) =>
      var id := NatToString(now) + "-ai";
      assert id[..|id| - 3] == NatToString(now);
      Segment(id, Ai, StoryText(story), now)
    case Failed =>
      var id := NatToString(now) + "-error";
      assert id[..|id| - 6] == NatToString(now);
      Segment(id, Ai, ErrorText, now)
  }

  /** What every segment of a transcript looks like: a user segment has a
      digits-only id and non-blank content; an AI segment is the intro or
      has an id ending in "-ai" or "-error". */
  predicate WellFormed(s: Segment)
  {
    match s.role
    case User => |s.id| >= 1 && AllDigits(s.id) && !IsBlank(s.content)
    case Ai => s.id == "intro" || EndsWith(s.id, "-ai") || EndsWith(s.id, "-error")
  }

  /** A user segment and an AI segment never share an id, whatever clock
      readings they were made with: only AI ids contain a non-digit. */
  lemma UserAndAiIdsDiffer(u: Segment, a: Segment)
    requires WellFormed(u) && WellFormed(a)
    requires u.role == User && a.role == Ai
    ensures u.id != a.id
  {
    var last := a.id[|a.id| - 1];
    if a.id == "intro" {
      assert last == 'o';
    } else if EndsWith(a.id, "-ai") {
      assert last == a.id[|a.id| - 3..][2] == 'i';
    } else {
      assert last == a.id[|a.id| - 6..][5] == 'r';
    }
    assert !IsDigit(last);
  }

  /** Across a whole well-formed transcript, ids never collide between a
      user segment and an AI segment. */
  lemma TranscriptRolesHaveDistinctIds(segments: seq<Segment>)
    requires forall k :: 0 <= k < |segments| ==> WellFormed(segments[k])
    ensures forall i, j ::
      (0 <= i < |segments| && 0 <= j < |segments| && segments[i].role == User && segments[j].role == Ai)
      ==> segments[i].id != segments[j].id
  {
    forall i, j | 0 <= i < |segments| && 0 <= j < |segments|
      && segments[i].role == User && segments[j].role == Ai
      ensures segments[i].id != segments[j].id
    {
      UserAndAiIdsDiffer(segments[i], segments[j]);
    }
  }

  /** Two segments of the same kind made at different clock readings have
      different ids; at the same reading they coincide. */
  lemma IdsFollowClock(outcome1: StoryOutcome, outcome2: StoryOutcome, text1: string, text2: string, t1: nat, t2: nat)
    ensures UserSegment(text1, t1).id == UserSegment(text2, t2).id <==> t1 == t2
    ensures outcome1.Failed? == outcome2.Failed? ==>
      (ResponseSegment(outcome1, t1).id == ResponseSegment(outcome2, t2).id <==> t1 == t2)
  {
    NatToStringInjective(t1, t2);
  }

  /** Appending a well-formed segment keeps a transcript well formed. */
  lemma AppendWellFormed(segments: seq<Segment>, s: Segment)
    requires forall k :: 0 <= k < |segments| ==> WellFormed(segments[k])
    requires WellFormed(s)
    ensures forall k :: 0 <= k < |segments + [s]| ==> WellFormed((segments + [s])[k])
  {
    forall k | 0 <= k < |segments + [s]|
      ensures WellFormed((segments + [s])[k])
    {
      if k < |segments| {
        assert (segments + [s])[k] == segments[k];
      }
    }
  }

  /** The story mode page's state: the transcript, the input box and the
      busy flag. */
  class StoryPage {
    var storySegments: seq<Segment>
    var inputPrompt: string
    var isGenerating: bool

    /** The transcript starts with the intro segment and every segment is
        well formed. */
    ghost predicate Valid()
      reads this
    {
      |storySegments| >= 1
      && storySegments[0].id == "intro" && storySegments[0].role == Ai
      && storySegments[0].content == IntroText
      && forall k :: 0 <= k < |storySegments| ==> WellFormed(storySegments[k])
    }

    /** The page as first shown: the intro segment alone, an empty input
        and no generation under way. */
    constructor (now: nat)
      ensures Valid()
      ensures storySegments == [IntroSegment(now)] && inputPrompt == "" && !isGenerating
    {
      storySegments := [IntroSegment(now)];
      inputPrompt := "";
      isGenerating := false;
    }

    /** `handleQuickPrompt` (and the input box's change handler, which does
        the same): replaces the input and nothing else. */
    method HandleQuickPrompt(prompt: string)
      requires Valid()
      modifies this
      ensures Valid()
      ensures inputPrompt == prompt
      ensures storySegments == old(storySegments) && isGenerating == old(isGenerating)
    {
      inputPrompt := prompt;
    }

    /** The part of `handleGenerateStory` before the generator is awaited.
        A blank input changes nothing. Otherwise the input, untrimmed, is
        appended as a user segment, the box is cleared, the page becomes
        busy, and the same text is returned as the generator's request. */
    method Begin(now: nat) returns (request: Option<string>)
      requires Valid()
      modifies this
      ensures Valid()
      ensures IsBlank(old(inputPrompt)) ==>
        request == None && storySegments == old(storySegments)
        && inputPrompt == old(inputPrompt) && isGenerating == old(isGenerating)
      ensures !IsBlank(old(inputPrompt)) ==>
        request == Some(old(inputPrompt))
        && storySegments == old(storySegments) + [UserSegment(old(inputPrompt), now)]
        && inputPrompt == "" && isGenerating
    {
      if Trim(inputPrompt) == "" {
        return None;
      }
      var newUserSegment := UserSegment(inputPrompt, now);
      AppendWellFormed(storySegments, newUserSegment);
      storySegments := storySegments + [newUserSegment];
      request := Some(inputPrompt);
      inputPrompt := "";
      isGenerating := true;
    }

    /** The part of `handleGenerateStory` after the generator settles:
        exactly one AI segment is appended (the story, the apology or the
        error text) and the page is no longer busy. */
    method Finish(outcome: StoryOutcome, now: nat)
      requires Valid()
      modifies this
      ensures Valid()
      ensures storySegments == old(storySegments) + [ResponseSegment(outcome, now)]
      ensures inputPrompt == old(inputPrompt) && !isGenerating
    {
      var segment := ResponseSegment(outcome, now);
      AppendWellFormed(storySegments, segment);
      storySegments := storySegments + [segment];
      isGenerating := false;
    }

    /** `handleGenerateStory` run to completion, the generator answering the
        request with `generateStory(request)`: an accepted prompt adds
        exactly two segments, user first, after the untouched old ones. */
    method HandleGenerateStory(generateStory: string -> StoryOutcome, userClock: nat, responseClock: nat)
      returns (request: Option<string>)
      requires Valid()
      modifies this
      ensures Valid()
      ensures request == (if IsBlank(old(inputPrompt)) then None else Some(old(inputPrompt)))
      ensures request == None ==>
        storySegments == old(storySegments) && inputPrompt == old(inputPrompt)
        && isGenerating == old(isGenerating)
      ensures request != None ==>
        storySegments == old(storySegments)
          + [UserSegment(request.value, userClock), ResponseSegment(generateStory(request.value), responseClock)]
        && inputPrompt == "" && !isGenerating
    {
      request := Begin(userClock);
      if request.Some? {
        Finish(generateStory(request.value), responseClock);
      }
    }
  }
}
