/** Task settings and the block/trial bookkeeping that the screens share
    (`SettingsContainer` and its nested `CircleTask` in src/settings.py).
    Values that Kivy reads from the configuration file are constructor
    parameters; `practice_block`, `n_practice_trials` and `constraint_type`
    are read by the screens although src/settings.py does not declare them,
    so they are configuration inputs here as well. */
module Settings {

  const CircleTaskName: string := "Circle Task"

  /** A `ConfigParserProperty` with `verify=lambda x: x > 0`: a value that
      fails verification is replaced by the property's `errorvalue`. */
  function VerifiedCount(x: int, errorValue: int): (r: int)
    ensures r == x || r == errorValue
    ensures r == x <==> x > 0 || x == errorValue
    ensures errorValue > 0 ==> r > 0
  {
    if x > 0 then x else errorValue
  }

  /** The same for the float settings, `verify=lambda x: x > 0.0`. */
  function VerifiedDuration(x: real, errorValue: real): (r: real)
    ensures r == x || r == errorValue
    ensures r == x <==> x > 0.0 || x == errorValue
    ensures errorValue > 0.0 ==> r > 0.0
  {
    if x > 0.0 then x else errorValue
  }

  /** The error values the properties declare. */
  const NTrialsErrorValue: int := 20
  const NBlocksErrorValue: int := 3
  const WarmUpErrorValue: real := 1.0
  const TrialDurationErrorValue: real := 1.0
  const CoolDownErrorValue: real := 0.5

  /** Whatever the configuration holds, the verified settings are positive. */
  lemma VerifiedSettingsPositive(nTrials: int, nBlocks: int, warmUp: real, trialDuration: real, coolDown: real)
    ensures VerifiedCount(nTrials, NTrialsErrorValue) > 0
    ensures VerifiedCount(nBlocks, NBlocksErrorValue) > 0
    ensures VerifiedDuration(warmUp, WarmUpErrorValue) > 0.0
    ensures VerifiedDuration(trialDuration, TrialDurationErrorValue) > 0.0
    ensures VerifiedDuration(coolDown, CoolDownErrorValue) > 0.0
    ensures VerifiedDuration(warmUp, WarmUpErrorValue) + VerifiedDuration(trialDuration, TrialDurationErrorValue)
            + VerifiedDuration(coolDown, CoolDownErrorValue) > 0.0
  {
  }

  /** `SettingsContainer.CircleTask`: the Circle Task's settings. */
  class CircleTaskSettings {
    var nTrials: int
    var nBlocks: int
    var constrainedBlock: int
    var warmUp: real
    var trialDuration: real
    var coolDown: real
    var constraint: bool
    /* Configuration inputs the screens read. */
    var practiceBlock: int
    var nPracticeTrials: int
    var constraintType: int

    predicate Valid()
      reads this
    {
      nTrials > 0 && nBlocks > 0 && warmUp > 0.0 && trialDuration > 0.0 && coolDown > 0.0
    }

    /** The tick period of the trial schedule. */
    function InterTrialInterval(): (iti: real)
      reads this
      requires Valid()
      ensures iti > warmUp && iti > trialDuration && iti > coolDown
    {
      warmUp + trialDuration + coolDown
    }

    /** `__init__`: the configured values pass their verification, and
        `constraint` starts false whatever the configuration says. */
    constructor (nTrials: int, nBlocks: int, constrainedBlock: int,
                 warmUp: real, trialDuration: real, coolDown: real,
                 practiceBlock: int, nPracticeTrials: int, constraintType: int)
      ensures Valid()
      ensures this.nTrials == VerifiedCount(nTrials, NTrialsErrorValue)
      ensures this.nBlocks == VerifiedCount(nBlocks, NBlocksErrorValue)
      ensures this.constrainedBlock == constrainedBlock
      ensures this.warmUp == VerifiedDuration(warmUp, WarmUpErrorValue)
      ensures this.trialDuration == VerifiedDuration(trialDuration, TrialDurationErrorValue)
      ensures this.coolDown == VerifiedDuration(coolDown, CoolDownErrorValue)
      ensures !constraint
      ensures this.practiceBlock == practiceBlock && this.nPracticeTrials == nPracticeTrials
      ensures this.constraintType == constraintType
    {
      this.nTrials := VerifiedCount(nTrials, NTrialsErrorValue);
      this.nBlocks := VerifiedCount(nBlocks, NBlocksErrorValue);
      this.constrainedBlock := constrainedBlock;
      this.warmUp := VerifiedDuration(warmUp, WarmUpErrorValue);
      this.trialDuration := VerifiedDuration(trialDuration, TrialDurationErrorValue);
      this.coolDown := VerifiedDuration(coolDown, CoolDownErrorValue);
      this.practiceBlock := practiceBlock;
      this.nPracticeTrials := nPracticeTrials;
      this.constraintType := constraintType;
      constraint := false;
    }

    /** `set_constraint_setting`: the block is constrained iff it is the
        configured constrained block. */
    method SetConstraintSetting(currentBlock: int)
      modifies this`constraint
      ensures constraint <==> currentBlock == constrainedBlock
    {
      constraint := currentBlock == constrainedBlock;
    }
  }

  /** What `on_is_local_storage_enabled` leaves in the property after it was
      set from `before` to `value`: Kivy runs the handler only on a change,
      and the handler turns storage off again without write permission. */
  function LocalStorageAfter(before: int, value: int, writePermit: bool): (r: int)
    ensures r == value || r == 0
    ensures r != value <==> before != value && value != 0 && !writePermit
    ensures value == 0 ==> r == 0
  {
    if before != value && value != 0 && !writePermit then 0 else value
  }

  /** A change to local storage is never enabled without permission. */
  lemma LocalStorageNeedsPermission(before: int, value: int, writePermit: bool)
    requires before != value
    ensures LocalStorageAfter(before, value, writePermit) != 0 ==> writePermit
  {
  }

  /** `SettingsContainer`. */
  class SettingsContainer {
    var task: string
    var user: string
    var currentUser: string
    var currentTask: string
    var isLocalStorageEnabled: int
    var isUploadEnabled: int
    var serverUri: string
    var isEmailEnabled: int
    var emailRecipient: string
    var isVibrateEnabled: bool
    var isSoundEnabled: bool
    var currentTrial: int
    var currentBlock: int
    const circleTask: CircleTaskSettings

    /** `__init__`: `reset_current` sets both counters to their initial 0,
        so no change event fires and the constraint keeps its initial false.
        The current user and task and the vibration and sound switches are
        attributes the class does not declare; they are given here. */
    constructor (task: string, user: string, isLocalStorageEnabled: int, isUploadEnabled: int,
                 serverUri: string, isEmailEnabled: int, emailRecipient: string,
                 circleTask: CircleTaskSettings, currentUser: string, currentTask: string,
                 isVibrateEnabled: bool, isSoundEnabled: bool)
      ensures this.task == task && this.user == user
      ensures this.currentUser == currentUser && this.currentTask == currentTask
      ensures this.isVibrateEnabled == isVibrateEnabled && this.isSoundEnabled == isSoundEnabled
      ensures this.isLocalStorageEnabled == isLocalStorageEnabled
      ensures this.isUploadEnabled == isUploadEnabled && this.serverUri == serverUri
      ensures this.isEmailEnabled == isEmailEnabled && this.emailRecipient == emailRecipient
      ensures currentTrial == 0 && currentBlock == 0
      ensures this.circleTask == circleTask
    {
      this.task := task;
      this.user := user;
      this.currentUser := currentUser;
      this.currentTask := currentTask;
      this.isLocalStorageEnabled := isLocalStorageEnabled;
      this.isUploadEnabled := isUploadEnabled;
      this.serverUri := serverUri;
      this.isEmailEnabled := isEmailEnabled;
      this.emailRecipient := emailRecipient;
      this.isVibrateEnabled := isVibrateEnabled;
      this.isSoundEnabled := isSoundEnabled;
      currentTrial := 0;
      currentBlock := 0;
      this.circleTask := circleTask;
    }

    /** `on_current_block`: the Circle Task recomputes its constraint from
        the new block index; other tasks leave it alone. */
    method OnCurrentBlock(value: int)
      modifies circleTask`constraint
      ensures task == CircleTaskName ==> (circleTask.constraint <==> value == circleTask.constrainedBlock)
      ensures task != CircleTaskName ==> circleTask.constraint == old(circleTask.constraint)
    {
      if task == CircleTaskName {
        circleTask.SetConstraintSetting(value);
      }
    }

    /** Assigning `current_block`, with the property event Kivy fires only
        when the value changes. */
    method SetCurrentBlock(value: int)
      modifies this`currentBlock, circleTask`constraint
      ensures currentBlock == value
      ensures value != old(currentBlock) && task == CircleTaskName ==>
                (circleTask.constraint <==> value == circleTask.constrainedBlock)
      ensures value == old(currentBlock) || task != CircleTaskName ==>
                circleTask.constraint == old(circleTask.constraint)
    {
      var changed := value != currentBlock;
      currentBlock := value;
      if changed {
        OnCurrentBlock(value);
      }
    }

    /** `reset_current`. */
    method ResetCurrent()
      modifies this`currentBlock, this`currentTrial, circleTask`constraint
      ensures currentBlock == 0 && currentTrial == 0
      ensures old(currentBlock) != 0 && task == CircleTaskName ==>
                (circleTask.constraint <==> circleTask.constrainedBlock == 0)
      ensures old(currentBlock) == 0 || task != CircleTaskName ==>
                circleTask.constraint == old(circleTask.constraint)
    {
      SetCurrentBlock(0);
      currentTrial := 0;
    }

    /** `next_block`: the trial counter restarts and the block advances by
        one, which always counts as a change. */
    method NextBlock()
      modifies this`currentBlock, this`currentTrial, circleTask`constraint
      ensures currentTrial == 0 && currentBlock == old(currentBlock) + 1
      ensures task == CircleTaskName ==> (circleTask.constraint <==> currentBlock == circleTask.constrainedBlock)
      ensures task != CircleTaskName ==> circleTask.constraint == old(circleTask.constraint)
    {
      currentTrial := 0;
      SetCurrentBlock(currentBlock + 1);
    }

    /** Assigning `is_local_storage_enabled`; `writePermit` is the app's
        permission after `ask_write_permission` ran. */
    method SetIsLocalStorageEnabled(value: int, writePermit: bool)
      modifies this`isLocalStorageEnabled
      ensures isLocalStorageEnabled == LocalStorageAfter(old(isLocalStorageEnabled), value, writePermit)
    {
      var changed := value != isLocalStorageEnabled;
      isLocalStorageEnabled := value;
      if changed && value != 0 && !writePermit {
        isLocalStorageEnabled := 0;
      }
    }
  }
}
