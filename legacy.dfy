/** The first version of the app, kept in main.py: a Circle Task screen
    whose block table holds only the two slider end values, a screen
    manager without task routing, and a settings container with the block
    and trial counters. The kv bindings are modelled as calls: the
    environment calls the manager's `TaskFinished` after each
    `on_task_stopped` dispatch, `GetReady` for each tick of the schedule,
    `FireStart` for a pending `start_trial`, `TrialFinished` when the
    countdown ends, and `SliderGrab` for a touch on a slider. */
module Legacy {
  import opened Wrappers
  import opened Strings
  import opened Sliders
  import CircleTask
  import Settings

  const EscapeKey: int := 27

  const HomeScreen: string := "Home"
  const SettingsScreen: string := "Settings"
  const CircleTaskScreen: string := "Circle Task"
  const InstructionsScreen: string := "Instructions"
  const OutroScreen: string := "Outro"
  const QuitHint: string := "Press again to quit."

  /** The header `np.savetxt` writes above the table. */
  const CsvHeader: string := "df1,df2"

  /** `SettingsContainer` of main.py. The configured values pass the same
      verification as in the later version; `constrained_block` has none. */
  class SettingsContainer {
    var user: string
    var nTrials: int
    var nBlocks: int
    var constrainedBlock: int
    var warmUp: real
    var trialDuration: real
    var coolDown: real
    var currentBlock: int
    var currentTrial: int
    var constraint: bool

    predicate Valid()
      reads this
    {
      nTrials > 0 && nBlocks > 0 && warmUp > 0.0 && trialDuration > 0.0 && coolDown > 0.0
    }

    /** The period of the trial schedule: `warm_up + trial_duration +
        cool_down`. */
    function InterTrialInterval(): (iti: real)
      reads this
      requires Valid()
      ensures iti > warmUp && iti > trialDuration && iti > coolDown
    {
      warmUp + trialDuration + coolDown
    }

    /** `__init__`, which ends with `reset_current`. */
    constructor (user: string, nTrials: int, nBlocks: int, constrainedBlock: int,
                 warmUp: real, trialDuration: real, coolDown: real)
      ensures Valid()
      ensures this.user == user && this.constrainedBlock == constrainedBlock
      ensures this.nTrials == Settings.VerifiedCount(nTrials, Settings.NTrialsErrorValue)
      ensures this.nBlocks == Settings.VerifiedCount(nBlocks, Settings.NBlocksErrorValue)
      ensures this.warmUp == Settings.VerifiedDuration(warmUp, Settings.WarmUpErrorValue)
      ensures this.trialDuration == Settings.VerifiedDuration(trialDuration, Settings.TrialDurationErrorValue)
      ensures this.coolDown == Settings.VerifiedDuration(coolDown, Settings.CoolDownErrorValue)
      ensures currentBlock == 1 && currentTrial == 0
      ensures constraint <==> constrainedBlock == 1
    {
      this.user := user;
      this.nTrials := Settings.VerifiedCount(nTrials, Settings.NTrialsErrorValue);
      this.nBlocks := Settings.VerifiedCount(nBlocks, Settings.NBlocksErrorValue);
      this.constrainedBlock := constrainedBlock;
      this.warmUp := Settings.VerifiedDuration(warmUp, Settings.WarmUpErrorValue);
      this.trialDuration := Settings.VerifiedDuration(trialDuration, Settings.TrialDurationErrorValue);
      this.coolDown := Settings.VerifiedDuration(coolDown, Settings.CoolDownErrorValue);
      new;
      ResetCurrent();
    }

    /** `reset_current`: the first block, no trial yet, and the constraint
        of the first block. */
    method ResetCurrent()
      modifies this`currentBlock, this`currentTrial, this`constraint
      ensures currentBlock == 1 && currentTrial == 0
      ensures constraint <==> constrainedBlock == 1
    {
      currentBlock := 1;
      currentTrial := 0;
      SetConstraintSetting();
    }

    /** `next_block`: the trial counter restarts in the next block. */
    method NextBlock()
      modifies this`currentTrial, this`currentBlock
      ensures currentTrial == 0 && currentBlock == old(currentBlock) + 1
    {
      currentTrial := 0;
      currentBlock := currentBlock + 1;
    }

    /** `set_constraint_setting`: the block is constrained iff it is the
        configured constrained block. */
    method SetConstraintSetting()
      modifies this`constraint
      ensures constraint <==> currentBlock == constrainedBlock
    {
      constraint := currentBlock == constrainedBlock;
    }
  }

  /** One row of the block table: the normalized values of df1 and df2. */
  datatype Endpoints = Endpoints(df1: real, df2: real)

  /** `np.zeros((n, 2))` */
  function Zeros(n: nat): (rows: seq<Endpoints>)
    ensures |rows| == n
    ensures forall i :: 0 <= i < n ==> rows[i] == Endpoints(0.0, 0.0)
  {
    seq(n, _ => Endpoints(0.0, 0.0))
  }

  /** `data * 100`: the table in percent. */
  function Percent(rows: seq<Endpoints>): (p: seq<Endpoints>)
    ensures |p| == |rows|
  {
    seq(|rows|, i requires 0 <= i < |rows| => Endpoints(rows[i].df1 * 100.0, rows[i].df2 * 100.0))
  }

  /** The progress label, `Trial <current>/<count>`; before the first block
      it reads `Trial: 0/0`. */
  function Progress(currentTrial: int, nTrials: int): string
  {
    "Trial " + IntToString(currentTrial) + "/" + IntToString(nTrials)
  }

  const InitialProgress: string := "Trial: 0/0"

  /** The `type` field of the file name; the spelling of the first one is
      the source's. */
  function BlockType(constraint: bool, target2Switch: bool): string
  {
    if !constraint then "unconstraint" else if target2Switch then "cosntrained_df2" else "constrained_df1"
  }

  /** Every block of a session gets one of three distinct types: an
      unconstrained block is named so, a constrained one names its slider. */
  lemma BlockTypeCases(constraint: bool, target2Switch: bool)
    ensures BlockType(constraint, target2Switch) == "unconstraint" <==> !constraint
    ensures BlockType(constraint, target2Switch) == "cosntrained_df2" <==> constraint && target2Switch
    ensures BlockType(constraint, target2Switch) == "constrained_df1" <==> constraint && !target2Switch
    ensures '-' !in BlockType(constraint, target2Switch)
  {
  }

  /** `{id}-CT-Block{block}-{type}-{time}.csv` */
  function FileName(user: string, block: int, kind: string, time: string): string
  {
    user + "-CT-Block" + IntToString(block) + "-" + kind + "-" + time + ".csv"
  }

  /** The text up to the first `-`. */
  function UntilDash(s: string): (r: string)
    ensures |r| <= |s| && '-' !in r
    ensures r == s[..|r|]
  {
    if |s| == 0 || s[0] == '-' then "" else [s[0]] + UntilDash(s[1..])
  }

  lemma {:induction false} UntilDashOf(a: string, b: string)
    requires '-' !in a
    ensures UntilDash(a + "-" + b) == a
    decreases |a|
  {
    if |a| > 0 {
      assert (a + "-" + b)[1..] == a[1..] + "-" + b;
      UntilDashOf(a[1..], b);
    }
  }

  /** The block number and the type a file name carries. */
  datatype FileFields = FileFields(block: string, kind: string)

  /** Reads the fields back from a file name of the given user. */
  function ParseFileName(name: string, user: string): (r: Option<FileFields>)
    ensures r.Some? ==> StartsWith(name, user + "-CT-Block")
  {
    var prefix := user + "-CT-Block";
    if !StartsWith(name, prefix) then None
    else
      var rest := name[|prefix|..];
      var block := UntilDash(rest);
      if |block| == |rest| then None
      else Some(FileFields(block, UntilDash(rest[|block| + 1..])))
  }

  /** After the prefix, a field free of `-` and then a dash: the parse
      reads that field as the block and the rest up to its dash as the kind. */
  lemma ParseAfterPrefix(prefix: string, user: string, block: string, tail: string)
    requires prefix == user + "-CT-Block" && '-' !in block
    ensures ParseFileName(prefix + (block + "-" + tail), user) == Some(FileFields(block, UntilDash(tail)))
  {
    var name := prefix + (block + "-" + tail);
    assert name[..|prefix|] == prefix;
    var rest := name[|prefix|..];
    assert rest == block + "-" + tail;
    UntilDashOf(block, tail);
    assert rest[|block| + 1..] == tail;
  }

  /** Two fields free of `-` after the prefix are read back as they are. */
  lemma ParseFields(user: string, block: string, kind: string, rest: string)
    requires '-' !in block && '-' !in kind
    ensures ParseFileName(user + "-CT-Block" + block + "-" + kind + "-" + rest, user) == Some(FileFields(block, kind))
  {
    var prefix := user + "-CT-Block";
    var tail := kind + "-" + rest;
    assert user + "-CT-Block" + block + "-" + kind + "-" + rest == prefix + (block + "-" + tail);
    ParseAfterPrefix(prefix, user, block, tail);
    UntilDashOf(kind, rest);
  }

  lemma DigitsHaveNoDash(n: nat)
    ensures '-' !in NatToString(n)
  {
    var digits := NatToString(n);
    forall i | 0 <= i < |digits|
      ensures digits[i] != '-'
    {
      assert IsDigit(digits[i]);
    }
  }

  /** A file name records its block and type so that both can be read back,
      and the block is the number that was formatted. */
  lemma FileNameRoundTrip(user: string, block: nat, constraint: bool, target2Switch: bool, time: string)
    ensures ParseFileName(FileName(user, block, BlockType(constraint, target2Switch), time), user)
            == Some(FileFields(NatToString(block), BlockType(constraint, target2Switch)))
    ensures ParseNat(NatToString(block)) == block
  {
    var kind := BlockType(constraint, target2Switch);
    DigitsHaveNoDash(block);
    BlockTypeCases(constraint, target2Switch);
    ParseFields(user, NatToString(block), kind, time + ".csv");
    assert FileName(user, block, kind, time) == user + "-CT-Block" + NatToString(block) + "-" + kind + "-" + (time + ".csv");
    ParseNatToString(block);
  }

  /** A CSV file `np.savetxt` writes. Its numbers are formatted as `%10.5f`;
      the model keeps the values. */
  datatype CsvFile = CsvFile(path: string, header: string, rows: seq<Endpoints>)

  /** What `write_data` takes from its surroundings: the clock reading as
      `%Y-%m-%d_%H-%M-%S`, the app's data path and its `write_permit`. */
  datatype FileEnv = FileEnv(stamp: string, dest: string, writePermit: bool)

  /** The file `write_data` writes for a block, if it writes one. */
  function BlockFile(user: string, block: int, constraint: bool, target2Switch: bool,
                     data: Option<seq<Endpoints>>, env: FileEnv): (r: Option<CsvFile>)
    ensures r.Some? <==> data.Some? && env.writePermit
    ensures r.Some? ==> r.value.header == CsvHeader && r.value.rows == Percent(data.value)
    ensures r.Some? ==>
              r.value.path == env.dest + "/" + FileName(user, block, BlockType(constraint, target2Switch), env.stamp)
  {
    var name := FileName(user, block, BlockType(constraint, target2Switch), env.stamp);
    if data.Some? && env.writePermit then Some(CsvFile(env.dest + "/" + name, CsvHeader, Percent(data.value)))
    else None
  }

  /** The files a call adds: none or one. */
  function Written(f: Option<CsvFile>): seq<CsvFile>
  {
    if f.Some? then [f.value] else []
  }

  /** The Circle Task screen of main.py. */
  class ScreenCircleTask {
    const settings: SettingsContainer
    var isConstrained: bool
    var target2Switch: bool
    var df1: CircleTask.Slider
    var df2: CircleTask.Slider
    var df1Touch: Option<Touch>
    var df2Touch: Option<Touch>
    var data: Option<seq<Endpoints>>
    /** The repeating schedule's period, None when unscheduled. */
    var interval: Option<real>
    /** Delays of the `start_trial` callbacks scheduled once, oldest first. */
    var pendingStarts: seq<real>
    var countdownRunning: bool
    var countdownStart: real
    var countdownLabel: string
    var progress: string
    /** The files written, oldest first, and the number of
        `on_task_stopped` dispatches. */
    var files: seq<CsvFile>
    var tasksStopped: nat

    /** While trials are scheduled, the table has a row per trial. */
    predicate Valid()
      reads this, settings
    {
      settings.Valid()
      && (interval.Some? ==>
            data.Some? && |data.value| == settings.nTrials && interval.value == settings.InterTrialInterval())
    }

    constructor (settings: SettingsContainer, df1: CircleTask.Slider, df2: CircleTask.Slider)
      requires settings.Valid()
      ensures Valid()
      ensures this.settings == settings && this.df1 == df1 && this.df2 == df2
      ensures !isConstrained && !target2Switch && df1Touch.None? && df2Touch.None? && data.None?
      ensures interval.None? && pendingStarts == [] && !countdownRunning && progress == InitialProgress
      ensures files == [] && tasksStopped == 0
    {
      this.settings := settings;
      this.df1 := df1;
      this.df2 := df2;
      isConstrained := false;
      target2Switch := false;
      df1Touch := None;
      df2Touch := None;
      data := None;
      interval := None;
      pendingStarts := [];
      countdownRunning := false;
      countdownStart := 3.0;
      countdownLabel := "";
      progress := InitialProgress;
      files := [];
      tasksStopped := 0;
    }

    /** `on_pre_enter`: the coin chooses the constrained slider, the table
        is cleared to one row of zeros per trial, and the task starts. */
    method OnPreEnter(coin: bool)
      requires Valid()
      modifies this`isConstrained, this`target2Switch, this`data, this`countdownStart, this`countdownLabel,
               this`df1, this`df2, this`df1Touch, this`df2Touch, this`interval, this`progress
      ensures Valid()
      ensures isConstrained == settings.constraint && target2Switch == coin
      ensures data == Some(Zeros(settings.nTrials))
      ensures countdownStart == settings.trialDuration && countdownLabel == "PREPARE"
      ensures df1 == old(df1).(disabled := true) && df2 == old(df2).(disabled := true)
      ensures df1Touch.None? && df2Touch.None?
      ensures interval == Some(settings.InterTrialInterval())
      ensures progress == Progress(settings.currentTrial, settings.nTrials)
    {
      isConstrained := settings.constraint;
      target2Switch := coin;
      data := Some(Zeros(settings.nTrials));
      countdownStart := settings.trialDuration;
      countdownLabel := "PREPARE";
      StartTask();
    }

    /** `slider_grab`: the slider's touch is recorded, disabled or not. */
    method SliderGrab(which: CircleTask.SliderId, touch: Touch)
      modifies this`df1Touch, this`df2Touch
      ensures which == CircleTask.Df1 ==> df1Touch == Some(touch) && df2Touch == old(df2Touch)
      ensures which == CircleTask.Df2 ==> df2Touch == Some(touch) && df1Touch == old(df1Touch)
    {
      if which == CircleTask.Df1 {
        df1Touch := Some(touch);
      } else {
        df2Touch := Some(touch);
      }
    }

    /** `disable_sliders`: both sliders off and their grabs released. */
    method DisableSliders()
      modifies this`df1, this`df2, this`df1Touch, this`df2Touch
      ensures df1 == old(df1).(disabled := true) && df2 == old(df2).(disabled := true)
      ensures df1Touch.None? && df2Touch.None?
    {
      df2 := df2.(disabled := true);
      df1 := df1.(disabled := true);
      df1Touch := None;
      df2Touch := None;
    }

    /** `enable_sliders` */
    method EnableSliders()
      modifies this`df1, this`df2
      ensures df1 == old(df1).(disabled := false) && df2 == old(df2).(disabled := false)
    {
      df2 := df2.(disabled := false);
      df1 := df1.(disabled := false);
    }

    /** `reset_sliders`: each slider at a tenth of its maximum. */
    method ResetSliders()
      modifies this`df1, this`df2
      ensures df1 == old(df1).(value := old(df1).max * 0.1) && df2 == old(df2).(value := old(df2).max * 0.1)
    {
      df1 := df1.(value := df1.max * 0.1);
      df2 := df2.(value := df2.max * 0.1);
    }

    /** `start_task`: sliders off, and `get_ready` scheduled every
        inter-trial interval. */
    method StartTask()
      requires settings.Valid() && data.Some? && |data.value| == settings.nTrials
      modifies this`df1, this`df2, this`df1Touch, this`df2Touch, this`interval, this`progress
      ensures Valid()
      ensures df1 == old(df1).(disabled := true) && df2 == old(df2).(disabled := true)
      ensures df1Touch.None? && df2Touch.None?
      ensures interval == Some(settings.InterTrialInterval())
      ensures progress == Progress(settings.currentTrial, settings.nTrials)
    {
      DisableSliders();
      var iti := settings.warmUp + settings.trialDuration + settings.coolDown;
      interval := Some(iti);
      progress := Progress(settings.currentTrial, settings.nTrials);
    }

    /** `get_ready`, the repeating tick: the block stops when the last trial
        was run; otherwise the counter advances and `start_trial` is
        scheduled once after the warm-up. A counter that never reaches
        the trial count is never stopped. */
    method GetReady(env: FileEnv)
      requires Valid() && interval.Some?
      modifies this`interval, this`df1, this`df2, this`files, this`tasksStopped, settings`currentTrial,
               this`progress, this`countdownLabel, this`pendingStarts
      ensures Valid()
      ensures old(settings.currentTrial) <= settings.nTrials ==> settings.currentTrial <= settings.nTrials
      ensures old(settings.currentTrial) == settings.nTrials ==>
                interval.None? && settings.currentTrial == old(settings.currentTrial)
                && files == old(files) + Written(BlockFile(settings.user, settings.currentBlock, settings.constraint,
                                                                target2Switch, data, env))
                && tasksStopped == old(tasksStopped) + 1
      ensures old(settings.currentTrial) == settings.nTrials && env.writePermit ==>
                |files| == |old(files)| + 1 && |files[|files| - 1].rows| == settings.nTrials
      ensures old(settings.currentTrial) != settings.nTrials ==>
                settings.currentTrial == old(settings.currentTrial) + 1
                && interval == old(interval) && files == old(files) && tasksStopped == old(tasksStopped)
                && pendingStarts == old(pendingStarts) + [settings.warmUp]
                && progress == Progress(settings.currentTrial, settings.nTrials) && countdownLabel == "GET READY"
      ensures df1 == old(df1).(value := old(df1).max * 0.1) && df2 == old(df2).(value := old(df2).max * 0.1)
    {
      if settings.currentTrial == settings.nTrials {
        StopTask(false, env);
      } else {
        settings.currentTrial := settings.currentTrial + 1;
        progress := Progress(settings.currentTrial, settings.nTrials);
        ResetSliders();
        countdownLabel := "GET READY";
        pendingStarts := pendingStarts + [settings.warmUp];
      }
    }

    /** `start_trial`: sliders on and the countdown running. */
    method StartTrial()
      modifies this`df1, this`df2, this`countdownRunning
      ensures df1 == old(df1).(disabled := false) && df2 == old(df2).(disabled := false)
      ensures countdownRunning
    {
      EnableSliders();
      countdownRunning := true;
    }

    /** The oldest pending `start_trial` callback fires; stopping the task
        does not cancel these. */
    method FireStart()
      requires |pendingStarts| > 0
      modifies this`df1, this`df2, this`countdownRunning, this`pendingStarts
      ensures pendingStarts == old(pendingStarts)[1..]
      ensures df1 == old(df1).(disabled := false) && df2 == old(df2).(disabled := false)
      ensures countdownRunning
    {
      pendingStarts := pendingStarts[1..];
      StartTrial();
    }

    /** `trial_finished`, the end of the countdown: the sliders are released
        and row `current_trial - 1` of the table receives their normalized
        values (numpy counts a negative row from the end). With no table
        the assignment raises TypeError, with the row out of range
        IndexError; the sliders are released in every case. */
    method TrialFinished() returns (raised: bool)
      modifies this`countdownRunning, this`df1, this`df2, this`df1Touch, this`df2Touch, this`countdownLabel,
               this`data
      ensures !countdownRunning && countdownLabel == "FINISHED"
      ensures df1 == old(df1).(disabled := true) && df2 == old(df2).(disabled := true)
      ensures df1Touch.None? && df2Touch.None?
      ensures raised <==> old(data).None? || !(-|old(data).value| <= settings.currentTrial - 1 < |old(data).value|)
      ensures raised ==> data == old(data)
      ensures !raised ==>
                data == Some(old(data).value[CircleTask.RowIndex(settings.currentTrial - 1, |old(data).value|)
                                             := Endpoints(CircleTask.Normalized(df1), CircleTask.Normalized(df2))])
    {
      countdownRunning := false;
      DisableSliders();
      countdownLabel := "FINISHED";
      if data.None? {
        return true;
      }
      var rows := data.value;
      var k := settings.currentTrial - 1;
      if !(-|rows| <= k < |rows|) {
        return true;
      }
      data := Some(rows[CircleTask.RowIndex(k, |rows|) := Endpoints(CircleTask.Normalized(df1), CircleTask.Normalized(df2))]);
      return false;
    }

    /** `stop_task`: the schedule is cancelled and the sliders reset; a
        stop that is not an interruption writes the data and dispatches
        `on_task_stopped`. */
    method StopTask(interrupt: bool, env: FileEnv)
      requires Valid()
      modifies this`interval, this`df1, this`df2, this`files, this`tasksStopped
      ensures Valid()
      ensures interval.None?
      ensures df1 == old(df1).(value := old(df1).max * 0.1) && df2 == old(df2).(value := old(df2).max * 0.1)
      ensures interrupt ==> files == old(files) && tasksStopped == old(tasksStopped)
      ensures !interrupt ==>
                files == old(files) + Written(BlockFile(settings.user, settings.currentBlock, settings.constraint,
                                                             target2Switch, data, env))
                && tasksStopped == old(tasksStopped) + 1
    {
      interval := None;
      ResetSliders();
      if !interrupt {
        WriteData(env);
        tasksStopped := tasksStopped + 1;
      }
    }

    /** `write_data`: the table in percent goes to a file named after the
        user, the block and its type, if there is a table and permission
        to write. */
    method WriteData(env: FileEnv)
      modifies this`files
      ensures files == old(files) + Written(BlockFile(settings.user, settings.currentBlock, settings.constraint,
                                                          target2Switch, data, env))
    {
      var t := env.stamp;
      var constrainedDf := if target2Switch then "cosntrained_df2" else "constrained_df1";
      var fileName := FileName(settings.user, settings.currentBlock, if settings.constraint then constrainedDf else "unconstraint", t);
      if data.Some? && env.writePermit {
        files := files + [CsvFile(env.dest + "/" + fileName, CsvHeader, Percent(data.value))];
      }
    }
  }

  /** The screen manager of main.py. */
  class UCMManager {
    const settings: SettingsContainer
    const circleTask: ScreenCircleTask
    var current: string
    /** How often the back button was pressed on the home screen; the app's
        `close_settings` may leave it at -1 just before a press. */
    var nHomeEsc: int
    var notifications: seq<string>
    var quitRequested: bool

    predicate Valid()
      reads this
    {
      nHomeEsc >= -1 && (nHomeEsc != 0 ==> current == HomeScreen)
    }

    constructor (settings: SettingsContainer, circleTask: ScreenCircleTask, current: string)
      ensures Valid()
      ensures this.settings == settings && this.circleTask == circleTask && this.current == current
      ensures nHomeEsc == 0 && notifications == [] && !quitRequested
    {
      this.settings := settings;
      this.circleTask := circleTask;
      this.current := current;
      nHomeEsc := 0;
      notifications := [];
      quitRequested := false;
    }

    /** Assigning `current`: Kivy calls `on_current` only when the screen
        changes, and a change resets the counter. */
    method SetCurrent(value: string)
      requires Valid()
      modifies this`current, this`nHomeEsc
      ensures Valid()
      ensures current == value
      ensures nHomeEsc == if value != old(current) then 0 else old(nHomeEsc)
    {
      if value != current {
        nHomeEsc := 0;
      }
      current := value;
    }

    /** `go_home` */
    method GoHome()
      requires Valid()
      modifies this`current, this`nHomeEsc
      ensures Valid()
      ensures current == HomeScreen
      ensures nHomeEsc == if old(current) != HomeScreen then 0 else old(nHomeEsc)
    {
      SetCurrent(HomeScreen);
    }

    /** The app's `close_settings`, which Kivy calls on every back press
        before `key_input`: from the settings it goes home and takes one
        from the counter, so that the press that follows is not counted. */
    method CloseSettings()
      requires Valid()
      modifies this`current, this`nHomeEsc
      ensures Valid()
      ensures old(current) == SettingsScreen ==> current == HomeScreen && nHomeEsc == -1
      ensures old(current) != SettingsScreen ==> current == old(current) && nHomeEsc == old(nHomeEsc)
    {
      if current == SettingsScreen {
        GoHome();
        nHomeEsc := nHomeEsc - 1;
      }
    }

    /** `key_input`: only the back key is handled. On the home screen the
        first press shows a hint and a second one quits; a running Circle
        Task is interrupted; every other screen goes home. */
    method KeyInput(key: int, env: FileEnv) returns (handled: bool)
      requires Valid()
      requires key == EscapeKey && current == CircleTaskScreen ==> circleTask.Valid()
      modifies this`current, this`nHomeEsc, this`notifications, this`quitRequested,
               circleTask`interval, circleTask`df1, circleTask`df2, circleTask`files, circleTask`tasksStopped
      ensures Valid()
      ensures handled <==> key == EscapeKey
      ensures key != EscapeKey ==>
                current == old(current) && nHomeEsc == old(nHomeEsc) && notifications == old(notifications)
                && quitRequested == old(quitRequested)
      ensures key != EscapeKey || old(current) != CircleTaskScreen ==> unchanged(circleTask)
      ensures key == EscapeKey && old(current) == HomeScreen ==>
                current == HomeScreen && nHomeEsc == old(nHomeEsc) + 1
                && notifications == old(notifications) + (if nHomeEsc == 1 then [QuitHint] else [])
                && quitRequested == (old(quitRequested) || nHomeEsc > 1)
      ensures key == EscapeKey && old(current) != HomeScreen ==>
                current == HomeScreen && nHomeEsc == (if old(current) == SettingsScreen then -1 else 0)
                && notifications == old(notifications) && quitRequested == old(quitRequested)
      ensures key == EscapeKey && old(current) == CircleTaskScreen ==>
                circleTask.interval.None? && circleTask.files == old(circleTask.files)
                && circleTask.tasksStopped == old(circleTask.tasksStopped)
    {
      if key != EscapeKey {
        return false;
      }
      if current == HomeScreen {
        nHomeEsc := nHomeEsc + 1;
        if nHomeEsc == 1 {
          notifications := notifications + [QuitHint];
        }
        if nHomeEsc > 1 {
          quitRequested := true;
        }
      } else if current == SettingsScreen {
        CloseSettings();
      } else if current == CircleTaskScreen {
        circleTask.StopTask(true, env);
        GoHome();
      } else {
        GoHome();
      }
      return true;
    }

    /** A back press on the settings screen, as Kivy delivers it: first the
        app's `close_settings`, then `key_input` on the home screen. The
        press leaves the app at home with the counter at zero: no hint and
        no quitting. */
    method BackFromSettings(env: FileEnv)
      requires Valid() && current == SettingsScreen
      modifies this`current, this`nHomeEsc, this`notifications, this`quitRequested,
               circleTask`interval, circleTask`df1, circleTask`df2, circleTask`files, circleTask`tasksStopped
      ensures Valid()
      ensures current == HomeScreen && nHomeEsc == 0
      ensures notifications == old(notifications) && quitRequested == old(quitRequested)
    {
      CloseSettings();
      var _ := KeyInput(EscapeKey, env);
    }

    /** `task_finished`, the listener of `on_task_stopped`: the next block,
        its constraint, and the outro after the last block. */
    method TaskFinished()
      requires Valid()
      modifies settings`currentTrial, settings`currentBlock, settings`constraint, this`current, this`nHomeEsc
      ensures Valid()
      ensures settings.currentBlock == old(settings.currentBlock) + 1 && settings.currentTrial == 0
      ensures settings.constraint <==> settings.currentBlock == settings.constrainedBlock
      ensures current == if settings.currentBlock > settings.nBlocks then OutroScreen else InstructionsScreen
      ensures nHomeEsc == if current != old(current) then 0 else old(nHomeEsc)
    {
      settings.NextBlock();
      settings.SetConstraintSetting();
      if settings.currentBlock > settings.nBlocks {
        SetCurrent(OutroScreen);
      } else {
        SetCurrent(InstructionsScreen);
      }
    }
  }
}
