/** The instruction screen shown before each Circle Task block
    (src/widgets/screeninstructions.py): entering it advances the block,
    then the title, the introduction, the instruction paragraphs and the
    example image are chosen for the new block. Every text goes through
    the app's translation, so the screen works on a catalogue of texts;
    module InstructionTexts holds the untranslated one. */
module Instructions {
  import opened Strings
  import Settings
  import CircleTask

  /** The texts of the screen in one language. Templates use `str.format`
      fields. */
  datatype Texts = Texts(
    intro: string,
    firstPracticeHint: string,
    secondPracticeHint: string,
    practiceHint: string,
    imageHint: string,
    practiceTitle: string,
    testingTitle: string,
    nTasks: string,
    plural: string,
    nTrials: string,
    timeLimit: string,
    vibration: string,
    sound: string,
    task1: string,
    task2: string)

  const TwoTasksImage: string := "res/CT_2tasks_trial.png"
  const OneTaskImage: string := "res/CT_1task_trial.png"

  /** `get_title`: a practice block is named by its practice number, a
      testing block by its number after the practice blocks. */
  function Title(tx: Texts, practiceBlock: int, currentBlock: int, nPracticeTrials: int): string
  {
    if practiceBlock != 0 then Format(tx.practiceTitle, [IntToString(practiceBlock)], 0)
    else Format(tx.testingTitle, [IntToString(currentBlock - (if nPracticeTrials != 0 then 2 else 0))], 0)
  }

  /** A testing block's title carries the block number its data are
      recorded under. */
  lemma TestingTitleNamesRecordedBlock(tx: Texts, post: string, currentBlock: int, nPracticeTrials: int)
    requires tx.testingTitle == "{}" + post && NoBrace(post)
    ensures Title(tx, 0, currentBlock, nPracticeTrials)
            == IntToString(CircleTask.BlockNumber(false, currentBlock, nPracticeTrials)) + post
  {
    assert tx.testingTitle == "" + "{}" + post;
    FormatOneField("", "{}", post, [IntToString(CircleTask.BlockNumber(false, currentBlock, nPracticeTrials))]);
  }

  /** A practice block's title carries its practice number. */
  lemma PracticeTitleNamesPracticeBlock(tx: Texts, post: string, practiceBlock: int, currentBlock: int,
                                        nPracticeTrials: int)
    requires practiceBlock != 0
    requires tx.practiceTitle == "{}" + post && NoBrace(post)
    ensures Title(tx, practiceBlock, currentBlock, nPracticeTrials) == IntToString(practiceBlock) + post
  {
    assert tx.practiceTitle == "" + "{}" + post;
    FormatOneField("", "{}", post, [IntToString(practiceBlock)]);
  }

  /** The hint `set_message` adds to the introduction: which practice block
      showed the same task, or that this block is practice. */
  function BlockHint(tx: Texts, practiceBlock: int, nPracticeTrials: int, constraint: bool): string
  {
    if practiceBlock == 0 && nPracticeTrials != 0 then
      (if constraint then "" else "\n" + tx.firstPracticeHint) + (if constraint then "\n" + tx.secondPracticeHint else "")
    else if practiceBlock != 0 then "\n" + tx.practiceHint
    else ""
  }

  function Intro(tx: Texts, practiceBlock: int, nPracticeTrials: int, constraint: bool): string
  {
    tx.intro + BlockHint(tx, practiceBlock, nPracticeTrials, constraint) + " " + tx.imageHint
  }

  /** The hint is missing only in testing blocks of a run without practice;
      after practice it names the practice block of the same condition. */
  lemma BlockHintCases(tx: Texts, practiceBlock: int, nPracticeTrials: int, constraint: bool)
    ensures BlockHint(tx, practiceBlock, nPracticeTrials, constraint) == "" <==> practiceBlock == 0 && nPracticeTrials == 0
    ensures practiceBlock == 0 && nPracticeTrials != 0 ==>
              BlockHint(tx, practiceBlock, nPracticeTrials, constraint)
              == "\n" + (if constraint then tx.secondPracticeHint else tx.firstPracticeHint)
    ensures practiceBlock != 0 ==> BlockHint(tx, practiceBlock, nPracticeTrials, constraint) == "\n" + tx.practiceHint
  {
  }

  /** The number of trials the instructions announce. */
  function TrialCount(practiceBlock: int, nPracticeTrials: int, nTrials: int): int
  {
    if practiceBlock != 0 then nPracticeTrials else nTrials
  }

  /** The instructions announce exactly the number of trials the Circle
      Task screen then runs in the block. */
  lemma TrialCountMatchesBlock(ct: Settings.CircleTaskSettings, coin: bool)
    ensures TrialCount(ct.practiceBlock, ct.nPracticeTrials, ct.nTrials) == CircleTask.ConfigOf(ct, coin).maxTrials
  {
  }

  function NTasks(constraint: bool): int
  {
    (if constraint then 1 else 0) + 1
  }

  /** `constraint * "s"` */
  function TaskSuffix(tx: Texts, constraint: bool): string
  {
    if constraint then tx.plural else ""
  }

  /** A constrained block has two tasks and speaks of them in the plural;
      an unconstrained one has one. */
  lemma TaskCountCases(tx: Texts, constraint: bool)
    requires tx.plural != ""
    ensures NTasks(constraint) == if constraint then 2 else 1
    ensures TaskSuffix(tx, constraint) != "" <==> NTasks(constraint) > 1
  {
  }

  function NTasksText(tx: Texts, constraint: bool): string
  {
    Format(tx.nTasks, [IntToString(NTasks(constraint)), TaskSuffix(tx, constraint)], 0)
  }

  function NTrialsText(tx: Texts, nTrials: int): string
  {
    Format(tx.nTrials, [IntToString(nTrials)], 0)
  }

  /** The trial paragraph names the trial count. */
  lemma NTrialsTextShape(tx: Texts, pre: string, post: string, nTrials: int)
    requires tx.nTrials == pre + "{}" + post && NoBrace(pre) && NoBrace(post)
    ensures NTrialsText(tx, nTrials) == pre + IntToString(nTrials) + post
  {
    FormatOneField(pre, "{}", post, [IntToString(nTrials)]);
  }

  /** The timing paragraph: the durations as `str()` shows them, the task
      suffix, the vibration hint if vibration is on, and the sound hint if
      sound is on. */
  function TimeLimitText(tx: Texts, warmUp: string, trialDuration: string, coolDown: string, suffix: string,
                         vibrate: bool, sound: bool): string
  {
    Format(tx.timeLimit, [warmUp, trialDuration, coolDown, suffix, if vibrate then tx.vibration else ""], 0)
    + (if sound then tx.sound else "")
  }

  /** The paragraphs of `set_message`, in their fixed order: tasks, the
      first task, the second task, timing, trials. */
  function Paragraphs(tx: Texts, constraint: bool, trialCount: int, timeLimit: string): seq<string>
  {
    [NTasksText(tx, constraint), tx.task1, if constraint then tx.task2 else "", timeLimit, NTrialsText(tx, trialCount)]
  }

  /** The second task is described exactly in constrained blocks; all other
      paragraphs are always there. */
  lemma ParagraphsShape(tx: Texts, constraint: bool, trialCount: int, timeLimit: string)
    requires tx.task2 != ""
    ensures |Paragraphs(tx, constraint, trialCount, timeLimit)| == 5
    ensures Paragraphs(tx, constraint, trialCount, timeLimit)[2] != "" <==> constraint
    ensures Paragraphs(tx, constraint, trialCount, timeLimit)[1] == tx.task1
    ensures Paragraphs(tx, constraint, trialCount, timeLimit)[3] == timeLimit
    ensures Paragraphs(tx, constraint, trialCount, timeLimit)[4] == NTrialsText(tx, trialCount)
  {
  }

  /** `set_img` */
  function Image(constraint: bool): string
  {
    if constraint then TwoTasksImage else OneTaskImage
  }

  lemma ImageShowsTwoTasksIffConstrained(constraint: bool)
    ensures Image(constraint) == TwoTasksImage <==> constraint
    ensures Image(constraint) == OneTaskImage <==> !constraint
  {
  }

  class ScreenInstructCircleTask {
    const settings: Settings.SettingsContainer
    /** The texts in the app's language. */
    const texts: Texts
    /** `str(x)` for a float setting. */
    const floatStr: real -> string
    var title: string
    var intro: string
    var paragraphs: seq<string>
    var image: string

    constructor (settings: Settings.SettingsContainer, texts: Texts, floatStr: real -> string)
      ensures this.settings == settings && this.texts == texts && this.floatStr == floatStr
      ensures title == "" && intro == "" && paragraphs == [] && image == ""
    {
      this.settings := settings;
      this.texts := texts;
      this.floatStr := floatStr;
      title := "";
      intro := "";
      paragraphs := [];
      image := "";
    }

    /** `on_pre_enter`: the block advances first, so everything shown is
        about the new block, constrained or not as the new block index
        says. */
    method OnPreEnter()
      modifies settings`currentBlock, settings`currentTrial, settings.circleTask`constraint,
               this`title, this`intro, this`paragraphs, this`image
      ensures settings.currentBlock == old(settings.currentBlock) + 1 && settings.currentTrial == 0
      ensures settings.task == Settings.CircleTaskName ==>
                (settings.circleTask.constraint <==> settings.currentBlock == settings.circleTask.constrainedBlock)
      ensures settings.task != Settings.CircleTaskName ==>
                settings.circleTask.constraint == old(settings.circleTask.constraint)
      ensures title == Title(texts, settings.circleTask.practiceBlock, old(settings.currentBlock) + 1,
                             settings.circleTask.nPracticeTrials)
      ensures var ct := settings.circleTask;
              intro == Intro(texts, ct.practiceBlock, ct.nPracticeTrials, ct.constraint)
              && paragraphs == Paragraphs(texts, ct.constraint, TrialCount(ct.practiceBlock, ct.nPracticeTrials, ct.nTrials),
                                          TimeLimitText(texts, floatStr(ct.warmUp), floatStr(ct.trialDuration),
                                                        floatStr(ct.coolDown), TaskSuffix(texts, ct.constraint),
                                                        settings.isVibrateEnabled, settings.isSoundEnabled))
              && image == Image(ct.constraint)
    {
      settings.NextBlock();
      var ct := settings.circleTask;
      title := Title(texts, ct.practiceBlock, settings.currentBlock, ct.nPracticeTrials);
      SetMessage();
      image := Image(ct.constraint);
    }

    /** `set_message` */
    method SetMessage()
      modifies this`intro, this`paragraphs
      ensures var ct := settings.circleTask;
              intro == Intro(texts, ct.practiceBlock, ct.nPracticeTrials, ct.constraint)
              && paragraphs == Paragraphs(texts, ct.constraint, TrialCount(ct.practiceBlock, ct.nPracticeTrials, ct.nTrials),
                                          TimeLimitText(texts, floatStr(ct.warmUp), floatStr(ct.trialDuration),
                                                        floatStr(ct.coolDown), TaskSuffix(texts, ct.constraint),
                                                        settings.isVibrateEnabled, settings.isSoundEnabled))
    {
      var ct := settings.circleTask;
      intro := Intro(texts, ct.practiceBlock, ct.nPracticeTrials, ct.constraint);
      var nTrials := TrialCount(ct.practiceBlock, ct.nPracticeTrials, ct.nTrials);
      var timeLimit := TimeLimitText(texts, floatStr(ct.warmUp), floatStr(ct.trialDuration), floatStr(ct.coolDown),
                                     TaskSuffix(texts, ct.constraint), settings.isVibrateEnabled, settings.isSoundEnabled);
      paragraphs := Paragraphs(texts, ct.constraint, nTrials, timeLimit);
    }
  }
}

/** The untranslated texts of the instruction screen, and the shape of its
    templates. */
module InstructionTexts {
  import opened Strings
  import opened Instructions
  import CircleTask

  const IntroEn: string :=
    "Please read the following information carefully before proceeding. Use scrolling to go through "
    + "the whole text. "
  const FirstPracticeHintEn: string := "This is the same task as in the first practice block."
  const SecondPracticeHintEn: string := "This is the same task as in the second practice block."
  const PracticeHintEn: string := "In this block you will practice to perform this task."
  const ImageHintEn: string := "Below is an exemplary image of a successfully executed task."
  const PracticeTitleEn: string := "{}" + ". Practice Block"
  const TestingTitleEn: string := "{}" + ". Testing Block"
  const NTasksEn: string :=
    "You have {0} task{1} in this block. Be as quick and as accurate as possible while performing "
    + "the task{1}"
  const PluralEn: string := "s"
  const NTrialsEn: string := "There are a total of " + "{}" + " trials in this block."
  const TimeLimitEn: string :=
    "A trial starts by giving you {0} seconds time to prepare for the trial. During this time "
    + "the sliders are inactive and can't be moved. This is indicated by their dimmed color. "
    + "After this preparation phase the sliders become active. You can then touch and move them. "
    + "{4}"
    + "You'll have {1} seconds time to complete the task{3}. The time limitation is visualized "
    + "by counting down the seconds in the middle of the screen, as well as by an outer "
    + "[color=ff00ff]purple ring[/color] that will close as the time runs out. A trial ends "
    + "when the outer [color=ff00ff]purple ring[/color] closes and the countdown reaches 0.\n"
    + "Shortly thereafter ({2} seconds) you will be prompted to get ready for the next trial. "
  const VibrationEn: string := "This will also be signaled to you by a short vibration. "
  const SoundEn: string :=
    "The events for the start and end of the countdown for each trial will play distinctive "
    + "sounds. "
  const Task1En: string :=
    "When the task starts, please hold your device sideways with both hands, so your thumbs can "
    + "reach their respective side of the screen comfortably.\n"
    + "In the middle of the screen you'll see a [b]white disk[/b] enclosed by a larger "
    + "[color=008000]green ring[/color]. Your task in each trial is to match the size of this "
    + "[b]white disk[/b] to the size of the [color=008000]green ring[/color], so the [b]white disk[/b] "
    + "accurately touches the [color=008000]green ring[/color]. You control the size of the disc by "
    + "using the [b]2 sliders[/b] located to the left and right side of the display with your thumbs. "
    + "Both sliders have an influence on the size of the disc and you'll need both at the same time to "
    + "get the [b]white disk[/b] to touch the [color=008000]green ring[/color]. Please perform the "
    + "task in a continuous motion and let go of the sliders when you think you reached the goal. "
    + "The sliders are deactivated once you let go of them."
  const Task2En: string :=
    "In addition you'll have to fulfill another task concurrently to the first task. On top of the "
    + "[color=008000]green ring[/color] there's a [color=3f84f2]blue arch[/color] which length is "
    + "controlled only by the slider with the blue handle and bar. You have to make the "
    + "[color=3f84f2]blue arch[/color] reach the small [color=3f84f2]blue dot[/color] that "
    + "is sitting on the [color=008000]green ring[/color] and not further. Note that the blue slider "
    + "still influences the size of the [b]white disk[/b] as well. Accomplish both tasks at the same "
    + "time!"

  const English: Texts :=
    Texts(IntroEn, FirstPracticeHintEn, SecondPracticeHintEn, PracticeHintEn, ImageHintEn,
          PracticeTitleEn, TestingTitleEn, NTasksEn, PluralEn, NTrialsEn,
          TimeLimitEn, VibrationEn, SoundEn, Task1En, Task2En)

  /** In English a testing block is titled "<n>. Testing Block", with the
      block number its data are recorded under. */
  lemma EnglishTestingTitle(tx: Texts, currentBlock: int, nPracticeTrials: int)
    requires tx.testingTitle == TestingTitleEn
    ensures Title(tx, 0, currentBlock, nPracticeTrials)
            == IntToString(CircleTask.BlockNumber(false, currentBlock, nPracticeTrials)) + ". Testing Block"
  {
    assert NoBrace(". Testing Block");
    TestingTitleNamesRecordedBlock(tx, ". Testing Block", currentBlock, nPracticeTrials);
  }

  /** In English a practice block is titled "<n>. Practice Block". */
  lemma EnglishPracticeTitle(tx: Texts, practiceBlock: int, currentBlock: int, nPracticeTrials: int)
    requires practiceBlock != 0 && tx.practiceTitle == PracticeTitleEn
    ensures Title(tx, practiceBlock, currentBlock, nPracticeTrials) == IntToString(practiceBlock) + ". Practice Block"
  {
    assert NoBrace(". Practice Block");
    PracticeTitleNamesPracticeBlock(tx, ". Practice Block", practiceBlock, currentBlock, nPracticeTrials);
  }

  /** In English the trial paragraph reads "There are a total of <n> trials
      in this block." */
  lemma EnglishTrials(tx: Texts, nTrials: int)
    requires tx.nTrials == NTrialsEn
    ensures NTrialsText(tx, nTrials) == "There are a total of " + IntToString(nTrials) + " trials in this block."
  {
    assert NoBrace("There are a total of ") && NoBrace(" trials in this block.");
    NTrialsTextShape(tx, "There are a total of ", " trials in this block.", nTrials);
  }
}
