/** The chat request one nag sends: the fixed system instruction, the past
    nags replayed as assistant turns, and a user turn carrying the screens
    and the instruction text (src/gpt-nagger.ts:76-93, 102-134). */
module Prompt {
  import opened Js
  import opened History

  /** Literals longer than a line are written as concatenations. */
  const SYSTEM_PROMPT :=
    "You are a system designed to observe the user's computer usage and help them STAY FOCUSED on the task at hand.\n"
    + "Imagine your voice coming from a strict but fair teacher, keeping the class in check. Communication short and to the point. SHORT ONE LINE QUIPS BY DEFAULT.\n"
    + "First gentle, but more strict if they don't improve. Cursing allowed."

  const ONE_SCREEN := "Here is my screen."
  const TWO_SCREENS := "Here is my CURRENT screen (1st image) " + "and my PREVIOUS screen (2nd image)."
  const FORBIDDEN := "Forbidden activities involve twitter, " + "video games and other distractions."
  const DRIFTING := "If my CURRENT screen is very similar " + "to the PREVIOUS screen, " + "I might be drifting off!"
  const SAY_GOOD_BOY := "If I am doing well, " + "say EXACTLY \"Good boy\"."
  const REPRIMAND := "Otherwise reprimand me. Take into " + "account previous warnings and times, " + "and escalate as needed."

  function GoalLine(goal: string): string
  {
    "I am trying to " + goal + "."
  }

  function LookLine(previous: nat): string
  {
    "Look at " + (if previous != 0 then "them" else "it") + " and make sure I am working on my task."
  }

  /** The array literal of the user prompt, before `filter(Boolean)`;
      `previous` is the number of past nags. */
  function PromptSlots(goal: string, previous: nat): seq<Slot<string>>
  {
    [ StrSlot(GoalLine(goal)),
      StrSlot(if previous != 0 then TWO_SCREENS else ONE_SCREEN),
      StrSlot(LookLine(previous)),
      StrSlot(FORBIDDEN),
      AndThen(previous, StrSlot(DRIFTING)),
      StrSlot(SAY_GOOD_BOY),
      StrSlot(REPRIMAND) ]
  }

  /** The lines of the user prompt that survive the filter. */
  function PromptLines(goal: string, previous: nat): seq<string>
  {
    Compact(PromptSlots(goal, previous))
  }

  /** The user prompt text: the surviving lines joined by newlines. */
  function UserPrompt(goal: string, previous: nat): string
  {
    Join(PromptLines(goal, previous))
  }

  /** Without history the prompt is six lines about one screen; with history
      it is seven, speaks of the CURRENT and PREVIOUS screens and warns of
      drifting off. Either way it opens with the goal and closes with the
      "Good boy" and reprimand instructions. */
  lemma PromptLinesShape(goal: string, previous: nat)
    ensures previous == 0 ==>
      PromptLines(goal, previous) == [GoalLine(goal), ONE_SCREEN, LookLine(0), FORBIDDEN, SAY_GOOD_BOY, REPRIMAND]
    ensures previous != 0 ==>
      PromptLines(goal, previous) == [GoalLine(goal), TWO_SCREENS, LookLine(previous), FORBIDDEN, DRIFTING, SAY_GOOD_BOY, REPRIMAND]
  {
    var screens := if previous != 0 then TWO_SCREENS else ONE_SCREEN;
    assert |GoalLine(goal)| > 0 && |screens| > 0 && |LookLine(previous)| > 0;
    assert |FORBIDDEN| > 0 && |DRIFTING| > 0 && |SAY_GOOD_BOY| > 0 && |REPRIMAND| > 0;
    CompactSkipsOne(GoalLine(goal), screens, LookLine(previous), FORBIDDEN,
      previous != 0, DRIFTING, SAY_GOOD_BOY, REPRIMAND);
  }

  /** The filter over seven non-empty lines of which the fifth may be
      switched off. */
  lemma CompactSkipsOne(l1: string, l2: string, l3: string, l4: string, on: bool,
                        l5: string, l6: string, l7: string)
    requires l1 != "" && l2 != "" && l3 != "" && l4 != "" && l5 != "" && l6 != "" && l7 != ""
    ensures on ==>
      Compact([StrSlot(l1), StrSlot(l2), StrSlot(l3), StrSlot(l4), StrSlot(l5), StrSlot(l6), StrSlot(l7)])
        == [l1, l2, l3, l4, l5, l6, l7]
    ensures !on ==>
      Compact([StrSlot(l1), StrSlot(l2), StrSlot(l3), StrSlot(l4), Falsy, StrSlot(l6), StrSlot(l7)])
        == [l1, l2, l3, l4, l6, l7]
  {
    var head := [StrSlot(l1), StrSlot(l2), StrSlot(l3), StrSlot(l4)];
    var tail := [StrSlot(l6), StrSlot(l7)];
    var middle: seq<Slot<string>> := if on then [StrSlot(l5)] else [Falsy];
    CompactAllTruthy(head);
    CompactAllTruthy(tail);
    CompactAppend(head + middle, tail);
    CompactAppend(head, middle);
    assert Compact(middle) == (if on then [l5] else []) + Compact(middle[1..]);
    assert head + middle + tail == if on
      then [StrSlot(l1), StrSlot(l2), StrSlot(l3), StrSlot(l4), StrSlot(l5), StrSlot(l6), StrSlot(l7)]
      else [StrSlot(l1), StrSlot(l2), StrSlot(l3), StrSlot(l4), Falsy, StrSlot(l6), StrSlot(l7)];
  }

  /** The fixed lines contain no line break. */
  lemma FixedLinesUnbroken()
    ensures '\n' !in ONE_SCREEN && '\n' !in TWO_SCREENS && '\n' !in FORBIDDEN
    ensures '\n' !in DRIFTING && '\n' !in SAY_GOOD_BOY && '\n' !in REPRIMAND
    ensures forall previous: nat :: '\n' !in LookLine(previous)
  {
    UnbrokenOneScreen();
    UnbrokenTwoScreens();
    UnbrokenForbidden();
    UnbrokenDrifting();
    UnbrokenSayGoodBoy();
    UnbrokenReprimand();
    LookUnbroken();
  }

  lemma UnbrokenOneScreen() ensures '\n' !in ONE_SCREEN {}
  lemma UnbrokenTwoScreens() ensures '\n' !in TWO_SCREENS {}
  lemma UnbrokenForbidden() ensures '\n' !in FORBIDDEN {}
  lemma UnbrokenDrifting() ensures '\n' !in DRIFTING {}
  lemma UnbrokenSayGoodBoy() ensures '\n' !in SAY_GOOD_BOY {}
  lemma UnbrokenReprimand() ensures '\n' !in REPRIMAND {}
  lemma LookUnbroken() ensures forall previous: nat :: '\n' !in LookLine(previous) {}

  /** No line of the prompt contains a line break when the goal does not. */
  lemma PromptLinesUnbroken(goal: string, previous: nat)
    requires '\n' !in goal
    ensures forall k :: 0 <= k < |PromptLines(goal, previous)| ==> '\n' !in PromptLines(goal, previous)[k]
  {
    PromptLinesShape(goal, previous);
    FixedLinesUnbroken();
    assert '\n' !in GoalLine(goal);
  }

  /** The prompt text consists of exactly those lines, provided the goal
      itself has no line break. */
  lemma UserPromptLines(goal: string, previous: nat)
    requires '\n' !in goal
    ensures Split(UserPrompt(goal, previous)) == PromptLines(goal, previous)
    ensures |Split(UserPrompt(goal, previous))| == if previous == 0 then 6 else 7
    ensures Split(UserPrompt(goal, previous))[0] == "I am trying to " + goal + "."
  {
    PromptLinesShape(goal, previous);
    PromptLinesUnbroken(goal, previous);
    SplitJoin(PromptLines(goal, previous));
  }

  datatype ContentPart = ImageUrl(url: string) | Text(text: string)

  datatype Message =
    | SystemMessage(content: string)
    | AssistantMessage(content: string)
    | UserMessage(parts: seq<ContentPart>)

  /** `previousNags.filter(nag => !!nag.text)`. */
  function WithText(history: seq<Nag>): (r: seq<Nag>)
    ensures |r| <= |history|
    ensures forall k :: 0 <= k < |r| ==> r[k] in history && r[k].text != ""
    ensures forall k :: 0 <= k < |history| && history[k].text != "" ==> history[k] in r
  {
    if history == [] then []
    else (if history[0].text != "" then [history[0]] else []) + WithText(history[1..])
  }

  /** The filter keeps order: filtering two stretches of history one after
      the other is filtering their concatenation. */
  lemma {:induction false} WithTextAppend(a: seq<Nag>, b: seq<Nag>)
    ensures WithText(a + b) == WithText(a) + WithText(b)
  {
    if a == [] {
      assert a + b == b;
    } else {
      assert (a + b)[0] == a[0];
      assert (a + b)[1..] == a[1..] + b;
      WithTextAppend(a[1..], b);
    }
  }

  /** A single record passes the filter exactly when its text is non-empty,
      and passes unchanged. */
  lemma WithTextSingle(nag: Nag)
    ensures WithText([nag]) == if nag.text != "" then [nag] else []
  {
    assert [nag][1..] == [];
  }

  /** The history that the loop keeps is all spoken, so the filter passes
      every record through. */
  lemma {:induction false} WithTextAllSpoken(history: seq<Nag>)
    requires AllSpoken(history)
    ensures WithText(history) == history
  {
    if history != [] {
      assert AllSpoken(history[1..]) by {
        forall k | 0 <= k < |history| - 1 ensures history[1..][k].text != "" {
          assert history[1..][k] == history[k + 1];
        }
      }
      WithTextAllSpoken(history[1..]);
    }
  }

  /** The assistant turn replaying one past nag, stamped with a relative
      time label. */
  function Replayed(ago: string, nag: Nag): Message
  {
    AssistantMessage("[" + ago + "] " + nag.text)
  }

  /** The assistant turns replaying the past nags that have text, oldest
      first. */
  function Replays(ago: string, history: seq<Nag>): (turns: seq<Message>)
    ensures |turns| == |WithText(history)|
    ensures forall k :: 0 <= k < |turns| ==> turns[k] == Replayed(ago, WithText(history)[k])
  {
    var spoken := WithText(history);
    seq(|spoken|, k requires 0 <= k < |spoken| => Replayed(ago, spoken[k]))
  }

  /** The user turn's content: the current screen, then the screen of the
      newest past nag when there is one, then the prompt text. */
  function UserContent(screenshot: string, history: seq<Nag>, prompt: string): seq<ContentPart>
  {
    Compact([
      Truthy(ImageUrl(screenshot)),
      AndThen(|history|, if history == [] then Falsy else Truthy(ImageUrl(history[|history| - 1].screenshotDataUri))),
      Truthy(Text(prompt))])
  }

  /** The messages of the chat request. `ago` is the relative time the
      replayed turns are stamped with. */
  function Request(goal: string, history: seq<Nag>, ago: string, screenshot: string): seq<Message>
  {
    [SystemMessage(SYSTEM_PROMPT)]
      + Replays(ago, history)
      + [UserMessage(UserContent(screenshot, history, UserPrompt(goal, |history|)))]
  }

  /** The user turn opens with the current screen and closes with the
      prompt text; it carries the previous screen, that of the newest past
      nag, exactly when there is history. */
  lemma UserContentShape(screenshot: string, history: seq<Nag>, prompt: string)
    ensures var parts := UserContent(screenshot, history, prompt);
      && |parts| == (if history == [] then 2 else 3)
      && parts[0] == ImageUrl(screenshot)
      && parts[|parts| - 1] == Text(prompt)
      && (history != [] ==> parts[1] == ImageUrl(history[|history| - 1].screenshotDataUri))
  {
    var slots := [
      Truthy(ImageUrl(screenshot)),
      AndThen(|history|, if history == [] then Falsy else Truthy(ImageUrl(history[|history| - 1].screenshotDataUri))),
      Truthy(Text(prompt))];
    if history == [] {
      assert slots == [slots[0]] + [Falsy] + [slots[2]];
      CompactAppend([slots[0]] + [Falsy], [slots[2]]);
      CompactAppend([slots[0]], [Falsy]);
    } else {
      CompactAllTruthy(slots);
    }
  }

  /** The request is the system instruction, then one assistant turn per
      past nag that has text, in history order, then exactly one user turn
      with the screens and the prompt for this goal and history. */
  lemma RequestShape(goal: string, history: seq<Nag>, ago: string, screenshot: string)
    ensures var msgs := Request(goal, history, ago, screenshot);
      && |msgs| == |WithText(history)| + 2
      && msgs[0] == SystemMessage(SYSTEM_PROMPT)
      && (forall k :: 1 <= k < |msgs| - 1 ==>
            msgs[k] == AssistantMessage("[" + ago + "] " + WithText(history)[k - 1].text))
      && msgs[|msgs| - 1] == UserMessage(UserContent(screenshot, history, UserPrompt(goal, |history|)))
  {
    var spoken := WithText(history);
    var replays := Replays(ago, history);
    var user := UserMessage(UserContent(screenshot, history, UserPrompt(goal, |history|)));
    var msgs := Request(goal, history, ago, screenshot);
    assert msgs == [SystemMessage(SYSTEM_PROMPT)] + replays + [user];
    forall k | 1 <= k < |msgs| - 1
      ensures msgs[k] == AssistantMessage("[" + ago + "] " + spoken[k - 1].text)
    {
      assert msgs[k] == replays[k - 1];
    }
  }

  /** For the history the loop keeps, every past nag is replayed, and the
      request is two messages longer than the history. */
  lemma RequestReplaysHistory(goal: string, history: seq<Nag>, ago: string, screenshot: string)
    requires AllSpoken(history)
    ensures var msgs := Request(goal, history, ago, screenshot);
      && |msgs| == |history| + 2
      && forall k :: 0 <= k < |history| ==> msgs[k + 1] == Replayed(ago, history[k])
  {
    WithTextAllSpoken(history);
    RequestShape(goal, history, ago, screenshot);
  }
}
