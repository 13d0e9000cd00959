/** The Circle Task screen (src/widgets/screencircletask.py): a block of
    timed trials in which the participant moves two sliders, "df1" and
    "df2". The screen's clock callbacks are methods the environment calls:
    `Tick` for the repeating schedule, `FireStart` for a pending
    `start_trial`, `TrialFinished` for the end of the countdown, and the
    slider events. A timing cell holding NaN is `None`. */
module CircleTask {
  import opened Wrappers
  import opened Strings
  import opened Records
  import opened Sliders
  import Settings
  import DataManager

  /** One row of the block table: df1, df2, df1_grab, df1_release,
      df2_grab, df2_release. */
  type Row = seq<Option<real>>

  const Columns: seq<string> := ["df1", "df2", "df1_grab", "df1_release", "df2_grab", "df2_release"]
  const SessionColumns: seq<string> :=
    ["task", "time", "time_iso", "block", "treatment", "hash", "warm_up", "trial_duration", "cool_down", "rating"]
  const AbortMessage: string :=
    "Please read instructions again carefully and perform task accordingly.\nAborting Session..."
  const PracticeMoreMessage: string :=
    "If the task was too difficult for you, go back and start over to practice some more.\n"
    + "You can also increase the number of practice trials in the settings, if you really need to."
  /** Ratings above this send a practising participant a hint. */
  const HardRating: int := 3

  /** A reading of the clock: `time.time()`, the text `str()` gives for it,
      and the time formatted as `time_fmt`. */
  datatype Instant = Instant(t: real, repr: string, stamp: string)

  datatype SliderId = Df1 | Df2

  /** The state of a slider widget the screen uses. */
  datatype Slider = Slider(disabled: bool, value: real, min: real, max: real, colored: bool)

  /** Kivy keeps a slider's value within its range. */
  function Clamp(v: real, s: Slider): real
  {
    if v < s.min then s.min else if v > s.max then s.max else v
  }

  /** Kivy's `value_normalized`. */
  function Normalized(s: Slider): real
  {
    if s.max - s.min == 0.0 then 0.0 else (s.value - s.min) / (s.max - s.min)
  }

  /** `t - onset`, NaN when the onset is NaN. */
  function Rel(t: real, onset: Option<real>): (r: Option<real>)
    ensures r.Some? <==> onset.Some?
    ensures r.Some? ==> r.value + onset.value == t
  {
    if onset.None? then None else Some(t - onset.value)
  }

  /** numpy's row index: a negative index counts from the end. */
  function RowIndex(k: int, n: nat): nat
    requires -(n as int) <= k < n
  {
    if k < 0 then n + k else k
  }

  /** The row `trial_finished` writes for trial `t` is row `t - 1`; for the
      counter still at 0 it is the last row of the table. */
  lemma TrialRowIndex(t: int, n: nat)
    requires 0 <= t <= n && n > 0
    ensures RowIndex(t - 1, n) < n
    ensures t >= 1 ==> RowIndex(t - 1, n) == t - 1
    ensures t == 0 ==> RowIndex(t - 1, n) == n - 1
  {
  }

  predicate RowsWellFormed(rows: seq<Row>)
  {
    forall r :: 0 <= r < |rows| ==> |rows[r]| == 6
  }

  const ZeroRow: Row := [Some(0.0), Some(0.0), Some(0.0), Some(0.0), Some(0.0), Some(0.0)]

  /** `np.zeros((n, 6))` */
  function Zeros(n: nat): (rows: seq<Row>)
    ensures |rows| == n && RowsWellFormed(rows)
    ensures forall r :: 0 <= r < n ==> rows[r] == ZeroRow
  {
    if n == 0 then [] else Zeros(n - 1) + [ZeroRow]
  }

  /** The warnings `check_slider_use` shows for one row. */
  datatype Warnings = Warnings(df1: bool, df2: bool, concurrency: bool)

  function SliderUseWarnings(row: Row): Warnings
    requires |row| == 6
  {
    Warnings(row[2].None? && row[3].None?,
             row[4].None? && row[5].None?,
             row[2].None? || row[3].None? || row[4].None? || row[5].None?
             || row[2].value >= row[5].value || row[4].value >= row[3].value)
  }

  function Max(a: real, b: real): real { if a < b then b else a }
  function Min(a: real, b: real): real { if a < b then a else b }

  /** A slider's warning means it was never touched in the trial; with both
      sliders' grab before their release, no concurrency warning means the
      two sliders were held at the same time for a while. */
  lemma ConcurrencyIsOverlap(row: Row)
    requires |row| == 6 && row[2].Some? && row[3].Some? && row[4].Some? && row[5].Some?
    requires row[2].value < row[3].value && row[4].value < row[5].value
    ensures !SliderUseWarnings(row).df1 && !SliderUseWarnings(row).df2
    ensures !SliderUseWarnings(row).concurrency <==>
              Max(row[2].value, row[4].value) < Min(row[3].value, row[5].value)
  {
  }

  /** Any missing timestamp warns about concurrency. */
  lemma MissingTimeWarns(row: Row, c: nat)
    requires |row| == 6 && 2 <= c < 6 && row[c].None?
    ensures SliderUseWarnings(row).concurrency
  {
  }

  /** A column holds NaN in every row. */
  predicate ColumnAllNone(rows: seq<Row>, c: nat)
    requires RowsWellFormed(rows) && c < 6
  {
    forall r :: 0 <= r < |rows| ==> rows[r][c].None?
  }

  /** The block is invalid when one slider was never grabbed in any trial;
      only the grab columns are looked at. */
  predicate IsInvalid(rows: seq<Row>)
    requires RowsWellFormed(rows)
  {
    ColumnAllNone(rows, 2) || ColumnAllNone(rows, 4)
  }

  /** A release is only ever stamped for a slider that was grabbed. */
  predicate ReleaseNeedsGrab(rows: seq<Row>)
    requires RowsWellFormed(rows)
  {
    forall r :: 0 <= r < |rows| ==> (rows[r][3].Some? ==> rows[r][2].Some?) && (rows[r][5].Some? ==> rows[r][4].Some?)
  }

  /** Where releases follow grabs, the block is invalid iff one slider's
      warning was shown after every trial. */
  lemma InvalidIffAlwaysWarned(rows: seq<Row>)
    requires RowsWellFormed(rows) && ReleaseNeedsGrab(rows)
    ensures IsInvalid(rows) <==>
              (forall r :: 0 <= r < |rows| ==> SliderUseWarnings(rows[r]).df1)
              || (forall r :: 0 <= r < |rows| ==> SliderUseWarnings(rows[r]).df2)
  {
  }

  /** `collect_meta_data`'s treatment: which slider is constrained. */
  function Treatment(isConstrained: bool, constraint: int, target2Switch: bool): string
  {
    if isConstrained && constraint == 1 then (if target2Switch then "df2" else "df1")
    else if isConstrained && constraint == 2 then "df1|df2"
    else ""
  }

  /** The treatment names a condition exactly when the block is constrained
      with a known constraint type, and never holds the CSV separator. */
  lemma TreatmentCases(isConstrained: bool, constraint: int, target2Switch: bool)
    ensures Treatment(isConstrained, constraint, target2Switch) != "" <==>
              isConstrained && (constraint == 1 || constraint == 2)
    ensures ',' !in Treatment(isConstrained, constraint, target2Switch)
    ensures isConstrained && constraint == 1 ==>
              Treatment(isConstrained, constraint, target2Switch) == (if target2Switch then "df2" else "df1")
  {
  }

  /** Two practice blocks come first when practice trials are configured. */
  function PracticeOffset(nPracticeTrials: int): int
  {
    if nPracticeTrials != 0 then 2 else 0
  }

  /** The block number recorded in the meta data: practice blocks are 0. */
  function BlockNumber(isPractice: bool, currentBlock: int, nPracticeTrials: int): (b: int)
    ensures isPractice ==> b == 0
    ensures !isPractice ==> b + PracticeOffset(nPracticeTrials) == currentBlock
  {
    if isPractice then 0 else currentBlock - PracticeOffset(nPracticeTrials)
  }

  /** `was_last_block` in `pre_task_stopped`. */
  predicate WasLastBlock(currentBlock: int, nBlocks: int, nPracticeTrials: int)
  {
    currentBlock == nBlocks + PracticeOffset(nPracticeTrials)
  }

  /** The last testing block is recorded with the number of blocks, and no
      earlier testing block is taken for the last. */
  lemma LastBlockNumber(currentBlock: int, nBlocks: int, nPracticeTrials: int)
    ensures WasLastBlock(currentBlock, nBlocks, nPracticeTrials) <==>
              BlockNumber(false, currentBlock, nPracticeTrials) == nBlocks
  {
  }

  /** `data[:, :2] * 100` followed by rounding to five decimals. */
  function ScaledCell(c: nat, x: Option<real>, round5: real -> real): Option<real>
  {
    if x.None? then None else if c < 2 then Some(round5(x.value * 100.0)) else Some(round5(x.value))
  }

  function ScaledRow(row: Row, round5: real -> real): (r: Row)
    requires |row| == 6
    ensures |r| == 6 && forall c :: 0 <= c < 6 ==> r[c] == ScaledCell(c, row[c], round5)
  {
    seq(6, c requires 0 <= c < 6 => ScaledCell(c, row[c], round5))
  }

  function Scaled(rows: seq<Row>, round5: real -> real): (s: seq<Row>)
    requires RowsWellFormed(rows)
    ensures |s| == |rows| && RowsWellFormed(s)
    ensures forall r :: 0 <= r < |rows| ==> s[r] == ScaledRow(rows[r], round5)
  {
    seq(|rows|, r requires 0 <= r < |rows| => ScaledRow(rows[r], round5))
  }

  /** Scaling keeps NaN cells NaN and numbers numbers, so validity does not
      change. */
  lemma ScaledKeepsValidity(rows: seq<Row>, round5: real -> real)
    requires RowsWellFormed(rows)
    ensures IsInvalid(Scaled(rows, round5)) <==> IsInvalid(rows)
  {
    var s: seq<Row> := Scaled(rows, round5);
    assert forall r: int, c: int :: 0 <= r < |rows| && 0 <= c < 6 ==> (s[r][c].None? <==> rows[r][c].None?);
  }

  function CellOf(x: Option<real>): Cell
  {
    if x.None? then NaN else Num(x.value)
  }

  /** The block table as handed to numpy. */
  function DataTable(rows: seq<Row>): (t: Table)
    ensures |t| == |rows|
    ensures forall r :: 0 <= r < |rows| ==>
              (|t[r]| == |rows[r]| && forall c :: 0 <= c < |rows[r]| ==> t[r][c] == CellOf(rows[r][c]))
  {
    seq(|rows|, r requires 0 <= r < |rows| => seq(|rows[r]|, c requires 0 <= c < |rows[r]| => CellOf(rows[r][c])))
  }

  /** `np.array(session_data)`: a table of mixed values becomes a table of
      their texts. */
  function SessionTable(session: seq<seq<Value>>): (t: Table)
    ensures |t| == |session|
    ensures forall r :: 0 <= r < |session| ==>
              (|t[r]| == |session[r]| && forall c :: 0 <= c < |session[r]| ==> t[r][c] == Txt(Str(session[r][c])))
  {
    seq(|session|, r requires 0 <= r < |session| =>
      seq(|session[r]|, c requires 0 <= c < |session[r]| => Txt(Str(session[r][c]))))
  }

  function ValueCell(v: Value): Cell
  {
    match v
    case Int(i) => Whole(i)
    case Float(x, _) => Num(x)
    case _ => Txt(Str(v))
  }

  /** `[columns] + session_data`, the list pickled for the e-mail. */
  function SessionEmailTable(session: seq<seq<Value>>): (t: Table)
    ensures |t| == |session| + 1 && |t[0]| == |SessionColumns|
    ensures forall c :: 0 <= c < |SessionColumns| ==> t[0][c] == Txt(SessionColumns[c])
    ensures forall r :: 0 <= r < |session| ==>
              (|t[r + 1]| == |session[r]| && forall c :: 0 <= c < |session[r]| ==> t[r + 1][c] == ValueCell(session[r][c]))
  {
    [seq(|SessionColumns|, c requires 0 <= c < |SessionColumns| => Txt(SessionColumns[c]))]
    + seq(|session|, r requires 0 <= r < |session| =>
        seq(|session[r]|, c requires 0 <= c < |session[r]| => ValueCell(session[r][c])))
  }

  /** The progress label, `Trial: <current>/<max>`. */
  function Progress(currentTrial: int, maxTrials: int): string
  {
    "Trial: " + IntToString(currentTrial) + "/" + IntToString(maxTrials)
  }

  /** The five times of a trial: its onset and, relative to it, the grab
      and release of each slider. NaN is None. */
  datatype Times = Times(onset: Option<real>, df1Grab: Option<real>, df1Release: Option<real>,
                         df2Grab: Option<real>, df2Release: Option<real>)

  /** `clear_times` */
  const NoTimes: Times := Times(None, None, None, None, None)

  /** What `disable_sliders` does to the times: a slider that still has its
      touch gets its release stamped at `now`. */
  function ReleaseAll(t: Times, df1Touch: Option<Touch>, df2Touch: Option<Touch>, now: real): (r: Times)
    ensures r.onset == t.onset && r.df1Grab == t.df1Grab && r.df2Grab == t.df2Grab
    ensures r.df1Release == if df1Touch.Some? then Rel(now, t.onset) else t.df1Release
    ensures r.df2Release == if df2Touch.Some? then Rel(now, t.onset) else t.df2Release
  {
    t.(df1Release := if df1Touch.Some? then Rel(now, t.onset) else t.df1Release,
       df2Release := if df2Touch.Some? then Rel(now, t.onset) else t.df2Release)
  }

  /** The row `trial_finished` records. */
  function RowOf(df1: Slider, df2: Slider, t: Times): (row: Row)
    ensures |row| == 6
    ensures row[0] == Some(Normalized(df1)) && row[1] == Some(Normalized(df2))
    ensures row[2] == t.df1Grab && row[3] == t.df1Release && row[4] == t.df2Grab && row[5] == t.df2Release
  {
    [Some(Normalized(df1)), Some(Normalized(df2)), t.df1Grab, t.df1Release, t.df2Grab, t.df2Release]
  }

  /** The block configuration `on_pre_enter` reads from the settings. */
  datatype BlockConfig = BlockConfig(isPractice: bool, maxTrials: int, isConstrained: bool,
                                     constraint: int, target2Switch: bool)

  function ConfigOf(ct: Settings.CircleTaskSettings, coin: bool): (c: BlockConfig)
    reads ct
    ensures c.isPractice <==> ct.practiceBlock != 0
    ensures c.maxTrials == if c.isPractice then ct.nPracticeTrials else ct.nTrials
    ensures c.isConstrained == ct.constraint && c.constraint == ct.constraintType && c.target2Switch == coin
  {
    var practice := ct.practiceBlock != 0;
    BlockConfig(practice, if practice then ct.nPracticeTrials else ct.nTrials, ct.constraint, ct.constraintType, coin)
  }

  /** Which sliders are drawn in color: the constrained ones. */
  function Df1Colored(c: BlockConfig): bool
  {
    c.isConstrained && (c.constraint == 2 || !c.target2Switch)
  }

  function Df2Colored(c: BlockConfig): bool
  {
    c.isConstrained && (c.constraint == 2 || c.target2Switch)
  }

  /** A constrained block colors exactly the slider the treatment names,
      or both under the double constraint; an unconstrained one none. */
  lemma ColoringMatchesTreatment(c: BlockConfig)
    requires c.constraint == 1 || c.constraint == 2 || !c.isConstrained
    ensures Treatment(c.isConstrained, c.constraint, c.target2Switch) == "df1" <==> Df1Colored(c) && !Df2Colored(c)
    ensures Treatment(c.isConstrained, c.constraint, c.target2Switch) == "df2" <==> Df2Colored(c) && !Df1Colored(c)
    ensures Treatment(c.isConstrained, c.constraint, c.target2Switch) == "df1|df2" <==> Df1Colored(c) && Df2Colored(c)
    ensures Treatment(c.isConstrained, c.constraint, c.target2Switch) == "" <==> !Df1Colored(c) && !Df2Colored(c)
  {
  }

  /** The entries `collect_meta_data` sets. */
  predicate IsBlockKey(k: MetaKey)
  {
    k in {TableKey, DeviceKey, UserKey, TaskKey, BlockKey, TreatmentKey, TimeIsoKey, TimeKey, HashKey, ColumnsKey}
  }

  /** The meta data of the session table. */
  function SessionMeta(now: Instant, task: string, user: string): (meta: Dict)
    ensures WellFormed(meta)
    ensures meta.keys == [TableKey, TimeKey, TimeIsoKey, TaskKey, UserKey]
    ensures Get(meta, TableKey) == Some(Text("session"))
    ensures Get(meta, TaskKey) == Some(Text(task)) && Get(meta, UserKey) == Some(Text(user))
  {
    Dict([TableKey, TimeKey, TimeIsoKey, TaskKey, UserKey],
         map[TableKey := Text("session"), TimeKey := Float(now.t, now.repr), TimeIsoKey := Text(now.stamp),
             TaskKey := Text(task), UserKey := Text(user)])
  }

  /** The ten assignments of `collect_meta_data`, in their order. */
  function BlockEntries(device: string, user: string, task: string, block: int,
                        treatment: string, now: Instant, hash: string): (es: seq<(MetaKey, Value)>)
    ensures |es| == 10 && forall i :: 0 <= i < |es| ==> IsBlockKey(es[i].0)
    ensures forall i, j :: 0 <= i < j < |es| ==> es[i].0 != es[j].0
  {
    [(TableKey, Text("trials")), (DeviceKey, Text(device)), (UserKey, Text(user)), (TaskKey, Text(task)),
     (BlockKey, Int(block)), (TreatmentKey, Text(treatment)), (TimeIsoKey, Text(now.stamp)),
     (TimeKey, Float(now.t, now.repr)), (HashKey, Text(hash)), (ColumnsKey, Names(Columns))]
  }

  /** The meta data after `collect_meta_data` (BlockMetaGets). */
  function BlockMeta(d: Dict, device: string, user: string, task: string, block: int,
                     treatment: string, now: Instant, hash: string): Dict
  {
    PutAll(d, BlockEntries(device, user, task, block, treatment, now, hash))
  }

  /** `collect_meta_data` sets its ten entries to the block's context and
      leaves every other entry, the saved rating among them, as it was. */
  lemma BlockMetaGets(d: Dict, device: string, user: string, task: string, block: int,
                      treatment: string, now: Instant, hash: string)
    ensures var m := BlockMeta(d, device, user, task, block, treatment, now, hash);
            Get(m, TableKey) == Some(Text("trials")) && Get(m, DeviceKey) == Some(Text(device))
            && Get(m, UserKey) == Some(Text(user)) && Get(m, TaskKey) == Some(Text(task))
            && Get(m, BlockKey) == Some(Int(block))
            && Get(m, TreatmentKey) == Some(Text(treatment)) && Get(m, TimeIsoKey) == Some(Text(now.stamp))
            && Get(m, TimeKey) == Some(Float(now.t, now.repr)) && Get(m, HashKey) == Some(Text(hash))
            && Get(m, ColumnsKey) == Some(Names(Columns))
    ensures forall k :: !IsBlockKey(k) ==> Get(BlockMeta(d, device, user, task, block, treatment, now, hash), k) == Get(d, k)
  {
    var es := BlockEntries(device, user, task, block, treatment, now, hash);
    forall i | 0 <= i < |es|
      ensures Get(PutAll(d, es), es[i].0) == Some(es[i].1)
    {
      AssignedLast(es, i);
      PutAllGets(d, es, es[i].0);
    }
    forall k | !IsBlockKey(k)
      ensures Get(PutAll(d, es), k) == Get(d, k)
    {
      PutAllGets(d, es, k);
    }
    assert es[0].0 == TableKey && es[1].0 == DeviceKey && es[2].0 == UserKey && es[3].0 == TaskKey
      && es[4].0 == BlockKey && es[5].0 == TreatmentKey && es[6].0 == TimeIsoKey && es[7].0 == TimeKey
      && es[8].0 == HashKey && es[9].0 == ColumnsKey;
  }

  /** The record `add_data_to_manager` hands over is a "trials" table. */
  lemma BlockRecordTable(d: Dict, device: string, user: string, task: string, block: int,
                         treatment: string, now: Instant, hash: string, v: Value)
    ensures Get(Put(BlockMeta(d, device, user, task, block, treatment, now, hash), DataKey, v), TableKey)
            == Some(Text("trials"))
  {
    BlockMetaGets(d, device, user, task, block, treatment, now, hash);
    PutGets(BlockMeta(d, device, user, task, block, treatment, now, hash), DataKey, v);
  }

  /** `collect_meta_data` keeps the meta data well formed. */
  lemma BlockMetaWellFormed(d: Dict, device: string, user: string, task: string, block: int,
                            treatment: string, now: Instant, hash: string)
    requires WellFormed(d)
    ensures WellFormed(BlockMeta(d, device, user, task, block, treatment, now, hash))
  {
    PutAllWellFormed(d, BlockEntries(device, user, task, block, treatment, now, hash));
  }

  /** `meta_data['columns']` holds the block's column names. */
  predicate HasColumns(m: Dict)
  {
    Get(m, ColumnsKey) == Some(Names(Columns))
  }

  /** The entries `add_block_to_session` reads. */
  predicate HasSessionKeys(m: Dict)
  {
    Get(m, TaskKey).Some? && Get(m, TimeKey).Some? && Get(m, TimeIsoKey).Some?
    && Get(m, BlockKey).Some? && Get(m, TreatmentKey).Some? && Get(m, HashKey).Some?
    && Get(m, RatingKey).Some?
  }

  /** After `collect_meta_data`, `add_block_to_session` finds every entry
      it reads exactly when a rating was saved. */
  lemma BlockMetaHasSessionKeys(d: Dict, device: string, user: string, task: string, block: int,
                                treatment: string, now: Instant, hash: string)
    ensures HasSessionKeys(BlockMeta(d, device, user, task, block, treatment, now, hash)) <==> Get(d, RatingKey).Some?
    ensures HasColumns(BlockMeta(d, device, user, task, block, treatment, now, hash))
  {
    BlockMetaGets(d, device, user, task, block, treatment, now, hash);
    assert !IsBlockKey(RatingKey);
  }

  /** The row `add_block_to_session` appends: the block's entries from the
      meta data, in the order of the session columns, with the timing
      settings in between. */
  function SessionRowOf(m: Dict, warmUp: real, trialDuration: real, coolDown: real, floatStr: real -> string): (row: seq<Value>)
  {
    [Entry(m, TaskKey), Entry(m, TimeKey), Entry(m, TimeIsoKey), Entry(m, BlockKey), Entry(m, TreatmentKey),
     Entry(m, HashKey), Float(warmUp, floatStr(warmUp)), Float(trialDuration, floatStr(trialDuration)),
     Float(coolDown, floatStr(coolDown)), Entry(m, RatingKey)]
  }

  class ScreenCircleTask {
    const settings: Settings.SettingsContainer
    const dataMgr: DataManager.DataManager
    /** `md5(data).hexdigest()` */
    const md5Hex: seq<Row> -> string
    /** `np.around(x, decimals=5)` */
    const round5: real -> real
    /** `str(x)` for a float setting. */
    const floatStr: real -> string
    /** `create_device_identifier()` */
    const deviceId: string

    /** is_practice, max_trials, is_constrained, constraint, target2_switch */
    var config: BlockConfig
    var df1: Slider
    var df2: Slider
    var df1Touch: Option<Touch>
    var df2Touch: Option<Touch>
    var times: Times
    /** Whether each warning label is visible. */
    var warnings: Warnings
    var data: Option<seq<Row>>
    var metaData: Dict
    var sessionData: seq<seq<Value>>
    /** The repeating schedule's period, None when unscheduled. */
    var interval: Option<real>
    /** Delays of the `start_trial` callbacks scheduled once, oldest first. */
    var pendingStarts: seq<real>
    var countdownRunning: bool
    var countdownStart: real
    var countdownLabel: string
    var progress: string
    /** Events dispatched: `on_task_stopped` arguments, warnings and infos
        for the screen manager, and whether the rating popup is open. */
    var taskStopped: seq<bool>
    var warningMessages: seq<string>
    var infoMessages: seq<string>
    var ratingPopupOpen: bool

    predicate Valid()
      reads this, settings, settings.circleTask
    {
      settings.circleTask.Valid()
      && (df1.disabled ==> df1Touch.None?)
      && (df2.disabled ==> df2Touch.None?)
      && (data.Some? ==> RowsWellFormed(data.value))
      && (interval.Some? ==>
            data.Some? && |data.value| == config.maxTrials && 0 <= settings.currentTrial <= config.maxTrials
            && interval.value == settings.circleTask.InterTrialInterval())
    }

    constructor (settings: Settings.SettingsContainer, dataMgr: DataManager.DataManager,
                 md5Hex: seq<Row> -> string, round5: real -> real, floatStr: real -> string,
                 deviceId: string, df1: Slider, df2: Slider)
      requires settings.circleTask.Valid()
      ensures Valid()
      ensures this.settings == settings && this.dataMgr == dataMgr && this.deviceId == deviceId
      ensures this.md5Hex == md5Hex && this.round5 == round5 && this.floatStr == floatStr
      ensures this.df1 == df1 && this.df2 == df2 && config == BlockConfig(true, 0, false, 0, false)
      ensures df1Touch.None? && df2Touch.None? && times == NoTimes
      ensures data.None? && metaData == EmptyDict && sessionData == []
      ensures interval.None? && pendingStarts == [] && !countdownRunning && progress == Progress(0, 0)
      ensures taskStopped == [] && warningMessages == [] && infoMessages == [] && !ratingPopupOpen
    {
      this.settings := settings;
      this.dataMgr := dataMgr;
      this.md5Hex := md5Hex;
      this.round5 := round5;
      this.floatStr := floatStr;
      this.deviceId := deviceId;
      config := BlockConfig(true, 0, false, 0, false);
      this.df1 := df1;
      this.df2 := df2;
      df1Touch := None;
      df2Touch := None;
      times := NoTimes;
      warnings := Warnings(false, false, false);
      data := None;
      metaData := EmptyDict;
      sessionData := [];
      interval := None;
      pendingStarts := [];
      countdownRunning := false;
      countdownStart := 0.0;
      countdownLabel := "";
      progress := Progress(0, 0);
      taskStopped := [];
      warningMessages := [];
      infoMessages := [];
      ratingPopupOpen := false;
    }

    /** `slider_grab`: only an enabled slider records a grab, relative to
        the onset; a second grab replaces the recorded touch. */
    method SliderGrab(which: SliderId, touch: Touch)
      requires Valid()
      modifies this`df1Touch, this`df2Touch, this`times, this`warnings
      ensures Valid()
      ensures if which == Df1 && !df1.disabled then
                df1Touch == Some(touch) && df2Touch == old(df2Touch)
                && times == old(times).(df1Grab := Rel(touch.timeStart, old(times).onset))
                && warnings == old(warnings).(df1 := false)
              else if which == Df2 && !df2.disabled then
                df2Touch == Some(touch) && df1Touch == old(df1Touch)
                && times == old(times).(df2Grab := Rel(touch.timeStart, old(times).onset))
                && warnings == old(warnings).(df2 := false)
              else
                df1Touch == old(df1Touch) && df2Touch == old(df2Touch) && times == old(times) && warnings == old(warnings)
    {
      if which == Df1 && !df1.disabled {
        df1Touch := Some(touch);
        times := times.(df1Grab := Rel(touch.timeStart, times.onset));
        warnings := warnings.(df1 := false);
      } else if which == Df2 && !df2.disabled {
        df2Touch := Some(touch);
        times := times.(df2Grab := Rel(touch.timeStart, times.onset));
        warnings := warnings.(df2 := false);
      }
    }

    /** The touch is the one recorded for the slider (`touch is dfX_touch`). */
    predicate Owns(which: SliderId, touch: Touch)
      reads this
    {
      if which == Df1 then df1Touch.Some? && df1Touch.value.id == touch.id
      else df2Touch.Some? && df2Touch.value.id == touch.id
    }

    /** `slider_ungrab`, bound to both `on_ungrab` and `on_leave`: only the
        recorded touch releases its slider, which is then disabled; `now`
        stands in for a touch that has not ended. */
    method SliderUngrab(which: SliderId, touch: Touch, now: real)
      requires Valid()
      modifies this`df1, this`df2, this`df1Touch, this`df2Touch, this`times
      ensures Valid()
      ensures var t := if touch.timeEnd == -1.0 then now else touch.timeEnd;
              if old(Owns(which, touch)) && which == Df1 then
                df1 == old(df1).(disabled := true) && df1Touch.None? && df2 == old(df2) && df2Touch == old(df2Touch)
                && times == old(times).(df1Release := Rel(t, old(times).onset))
              else if old(Owns(which, touch)) then
                df2 == old(df2).(disabled := true) && df2Touch.None? && df1 == old(df1) && df1Touch == old(df1Touch)
                && times == old(times).(df2Release := Rel(t, old(times).onset))
              else
                df1 == old(df1) && df2 == old(df2) && df1Touch == old(df1Touch) && df2Touch == old(df2Touch)
                && times == old(times)
    {
      var t := if touch.timeEnd == -1.0 then now else touch.timeEnd;
      if which == Df1 && df1Touch.Some? && df1Touch.value.id == touch.id {
        df1 := df1.(disabled := true);
        times := times.(df1Release := Rel(t, times.onset));
        df1Touch := None;
      } else if which == Df2 && df2Touch.Some? && df2Touch.value.id == touch.id {
        df2 := df2.(disabled := true);
        times := times.(df2Release := Rel(t, times.onset));
        df2Touch := None;
      }
    }

    /** The base slider follows a touch only while it is enabled; Kivy keeps
        the value within the slider's range. */
    method MoveSlider(which: SliderId, value: real)
      modifies this`df1, this`df2
      ensures df1 == if which == Df1 && !old(df1).disabled then old(df1).(value := Clamp(value, old(df1))) else old(df1)
      ensures df2 == if which == Df2 && !old(df2).disabled then old(df2).(value := Clamp(value, old(df2))) else old(df2)
    {
      if which == Df1 && !df1.disabled {
        df1 := df1.(value := Clamp(value, df1));
      } else if which == Df2 && !df2.disabled {
        df2 := df2.(value := Clamp(value, df2));
      }
    }

    /** `disable_sliders`: both sliders end disabled with no touch; a
        release is stamped only for a slider that had one. */
    method DisableSliders(now: real)
      requires Valid()
      modifies this`df1, this`df2, this`df1Touch, this`df2Touch, this`times
      ensures Valid()
      ensures df1 == old(df1).(disabled := true) && df2 == old(df2).(disabled := true)
      ensures df1Touch.None? && df2Touch.None?
      ensures times == ReleaseAll(old(times), old(df1Touch), old(df2Touch), now)
    {
      df2 := df2.(disabled := true);
      df1 := df1.(disabled := true);
      times := ReleaseAll(times, df1Touch, df2Touch, now);
      df1Touch := None;
      df2Touch := None;
    }

    /** `enable_sliders` */
    method EnableSliders()
      requires Valid()
      modifies this`df1, this`df2
      ensures Valid()
      ensures df1 == old(df1).(disabled := false) && df2 == old(df2).(disabled := false)
    {
      df2 := df2.(disabled := false);
      df1 := df1.(disabled := false);
    }

    /** `reset_sliders`: each slider at a tenth of its maximum, and the
        times cleared. */
    method ResetSliders()
      requires Valid()
      modifies this`df1, this`df2, this`times
      ensures Valid()
      ensures df1 == old(df1).(value := old(df1).max * 0.1) && df2 == old(df2).(value := old(df2).max * 0.1)
      ensures times == NoTimes
    {
      df1 := df1.(value := df1.max * 0.1);
      df2 := df2.(value := df2.max * 0.1);
      times := NoTimes;
    }

    /** The trial count of the block about to start. */
    function BlockTrials(): int
      reads settings, settings.circleTask
    {
      ConfigOf(settings.circleTask, false).maxTrials
    }

    /** `on_pre_enter`: set the block up and start its schedule. `coin` is
        the random choice of `target2_switch`, `now` the clock. */
    method OnPreEnter(coin: bool, now: real)
      requires Valid()
      requires 0 <= settings.currentTrial <= BlockTrials()
      modifies this`config, this`df1, this`df2, this`warnings, this`data, this`countdownStart,
               this`countdownLabel, this`df1Touch, this`df2Touch, this`times, this`progress, this`interval
      ensures Valid()
      ensures config == ConfigOf(settings.circleTask, coin)
      ensures df1.colored == Df1Colored(config) && df2.colored == Df2Colored(config)
      ensures df1.disabled && df2.disabled && df1Touch.None? && df2Touch.None?
      ensures warnings.df1 && warnings.df2
      ensures data == Some(Zeros(config.maxTrials))
      ensures countdownStart == settings.circleTask.trialDuration && countdownLabel == "PREPARE"
      ensures interval == Some(settings.circleTask.InterTrialInterval())
      ensures progress == Progress(settings.currentTrial, config.maxTrials)
    {
      SetUpBlock(coin);
      StartTask(now);
    }

    /** The part of `on_pre_enter` before the schedule starts. */
    method SetUpBlock(coin: bool)
      requires Valid() && BlockTrials() >= 0
      modifies this`config, this`df1, this`df2, this`warnings, this`data, this`countdownStart,
               this`countdownLabel, this`interval
      ensures config == ConfigOf(settings.circleTask, coin)
      ensures df1 == old(df1).(colored := Df1Colored(config)) && df2 == old(df2).(colored := Df2Colored(config))
      ensures warnings == old(warnings).(df1 := true, df2 := true)
      ensures data == Some(Zeros(config.maxTrials))
      ensures countdownStart == settings.circleTask.trialDuration && countdownLabel == "PREPARE"
      ensures interval.None?
    {
      var c := ConfigOf(settings.circleTask, coin);
      interval := None;
      config := c;
      df1 := df1.(colored := Df1Colored(c));
      df2 := df2.(colored := Df2Colored(c));
      warnings := warnings.(df1 := true, df2 := true);
      data := Some(Zeros(c.maxTrials));
      countdownStart := settings.circleTask.trialDuration;
      countdownLabel := "PREPARE";
    }

    /** `start_task`: sliders off, progress shown, and the repeating tick of
        period warm-up + trial + cool-down scheduled. */
    method StartTask(now: real)
      requires settings.circleTask.Valid()
      requires data.Some? && RowsWellFormed(data.value) && |data.value| == config.maxTrials
      requires 0 <= settings.currentTrial <= config.maxTrials
      requires df1.disabled ==> df1Touch.None?
      requires df2.disabled ==> df2Touch.None?
      modifies this`df1, this`df2, this`df1Touch, this`df2Touch, this`times, this`progress, this`interval
      ensures Valid()
      ensures df1 == old(df1).(disabled := true) && df2 == old(df2).(disabled := true)
      ensures df1Touch.None? && df2Touch.None?
      ensures times == ReleaseAll(old(times), old(df1Touch), old(df2Touch), now)
      ensures progress == Progress(settings.currentTrial, config.maxTrials)
      ensures interval == Some(settings.circleTask.InterTrialInterval())
    {
      interval := None;
      DisableSliders(now);
      var iti := settings.circleTask.warmUp + settings.circleTask.trialDuration + settings.circleTask.coolDown;
      progress := Progress(settings.currentTrial, config.maxTrials);
      interval := Some(iti);
    }

    /** `get_ready`, the repeating tick: the block stops when all its trials
        were run; otherwise the next trial is announced and its start is
        scheduled after the warm-up. */
    method Tick(now: real)
      requires Valid() && interval.Some?
      modifies this`interval, this`df1, this`df2, this`times, this`sessionData, this`metaData, this`data,
               this`warningMessages, this`taskStopped, this`ratingPopupOpen, dataMgr`isInvalid,
               settings`currentTrial, this`progress, this`countdownLabel, this`pendingStarts
      ensures Valid()
      ensures settings.currentTrial <= config.maxTrials
      ensures old(settings.currentTrial) == config.maxTrials ==>
                interval.None? && settings.currentTrial == old(settings.currentTrial)
                && StoppedAsBlockEnd(old(data.value), old(taskStopped), old(warningMessages))
      ensures old(settings.currentTrial) != config.maxTrials ==>
                settings.currentTrial == old(settings.currentTrial) + 1
                && interval == old(interval) && data == old(data)
                && pendingStarts == old(pendingStarts) + [settings.circleTask.warmUp]
                && progress == Progress(settings.currentTrial, config.maxTrials) && countdownLabel == "GET READY"
                && df1 == old(df1).(value := old(df1).max * 0.1) && df2 == old(df2).(value := old(df2).max * 0.1)
                && times == NoTimes
    {
      if settings.currentTrial == config.maxTrials {
        StopTask(false, now);
      } else {
        NextTrial();
      }
    }

    /** A tick with trials left: the counter advances, the sliders are
        reset, and `start_trial` is scheduled once after the warm-up. */
    method NextTrial()
      requires Valid() && interval.Some? && settings.currentTrial < config.maxTrials
      modifies settings`currentTrial, this`progress, this`df1, this`df2, this`times, this`countdownLabel,
               this`pendingStarts
      ensures Valid()
      ensures settings.currentTrial == old(settings.currentTrial) + 1
      ensures pendingStarts == old(pendingStarts) + [settings.circleTask.warmUp]
      ensures progress == Progress(settings.currentTrial, config.maxTrials) && countdownLabel == "GET READY"
      ensures df1 == old(df1).(value := old(df1).max * 0.1) && df2 == old(df2).(value := old(df2).max * 0.1)
      ensures times == NoTimes
    {
      settings.currentTrial := settings.currentTrial + 1;
      progress := Progress(settings.currentTrial, config.maxTrials);
      ResetSliders();
      countdownLabel := "GET READY";
      pendingStarts := pendingStarts + [settings.circleTask.warmUp];
    }

    /** What a stop that is not an interruption leaves behind: an invalid
        block is cleared, reported and ends the session; a valid one waits
        for the difficulty rating. */
    predicate StoppedAsBlockEnd(rows: seq<Row>, stoppedBefore: seq<bool>, warningsBefore: seq<string>)
      reads this, dataMgr
      requires RowsWellFormed(rows)
    {
      if IsInvalid(rows) then
        data.None? && metaData == EmptyDict && sessionData == [] && dataMgr.isInvalid
        && taskStopped == stoppedBefore + [true] && warningMessages == warningsBefore + [AbortMessage]
      else
        data == Some(rows) && ratingPopupOpen
        && taskStopped == stoppedBefore && warningMessages == warningsBefore
    }

    /** `stop_task`: the schedule is cancelled and the sliders reset; an
        interruption discards the block, otherwise the block is checked. */
    method StopTask(interrupt: bool, now: real)
      requires Valid() && (interrupt || data.Some?)
      modifies this`interval, this`df1, this`df2, this`times, this`sessionData, this`metaData, this`data,
               this`warningMessages, this`taskStopped, this`ratingPopupOpen, dataMgr`isInvalid
      ensures Valid()
      ensures interval.None?
      ensures df1 == old(df1).(value := old(df1).max * 0.1) && df2 == old(df2).(value := old(df2).max * 0.1)
      ensures times == NoTimes
      ensures interrupt ==>
                data.None? && metaData == EmptyDict && sessionData == []
                && taskStopped == old(taskStopped) && warningMessages == old(warningMessages)
                && dataMgr.isInvalid == old(dataMgr.isInvalid) && ratingPopupOpen == old(ratingPopupOpen)
      ensures !interrupt ==> StoppedAsBlockEnd(old(data.value), old(taskStopped), old(warningMessages))
    {
      interval := None;
      ResetSliders();
      if interrupt {
        ClearData();
      } else {
        CheckBlock();
      }
    }

    /** The check of a block that ran to its end: an invalid block is
        cleared, reported and ends the session, a valid one waits for the
        difficulty rating. */
    method CheckBlock()
      requires Valid() && interval.None? && data.Some?
      modifies this`sessionData, this`metaData, this`data, this`warningMessages, this`taskStopped,
               this`ratingPopupOpen, dataMgr`isInvalid
      ensures Valid()
      ensures StoppedAsBlockEnd(old(data.value), old(taskStopped), old(warningMessages))
    {
      if IsInvalid(data.value) {
        ClearData();
        warningMessages := warningMessages + [AbortMessage];
        dataMgr.isInvalid := true;
        DispatchTaskStopped(true);
      } else {
        ratingPopupOpen := true;
      }
    }

    /** Dispatching `on_task_stopped`: the listeners see the event first,
        then the screen's own handler clears the data after the last block. */
    method DispatchTaskStopped(wasLastBlock: bool)
      requires Valid() && interval.None?
      modifies this`taskStopped, this`sessionData, this`metaData, this`data
      ensures Valid()
      ensures taskStopped == old(taskStopped) + [wasLastBlock]
      ensures wasLastBlock ==> data.None? && metaData == EmptyDict && sessionData == []
      ensures !wasLastBlock ==> data == old(data) && metaData == old(metaData) && sessionData == old(sessionData)
    {
      taskStopped := taskStopped + [wasLastBlock];
      if wasLastBlock {
        ClearData();
      }
    }

    /** `clear_data` */
    method ClearData()
      requires Valid() && interval.None?
      modifies this`sessionData, this`metaData, this`data
      ensures Valid()
      ensures data.None? && metaData == EmptyDict && sessionData == []
    {
      sessionData := [];
      metaData := EmptyDict;
      data := None;
    }

    /** `start_trial`: the sliders come on, the countdown runs, and the
        onset is taken. */
    method StartTrial(now: real)
      requires Valid()
      modifies this`df1, this`df2, this`countdownRunning, this`times
      ensures Valid()
      ensures df1 == old(df1).(disabled := false) && df2 == old(df2).(disabled := false)
      ensures countdownRunning && times == old(times).(onset := Some(now))
    {
      EnableSliders();
      countdownRunning := true;
      times := times.(onset := Some(now));
    }

    /** The oldest pending `start_trial` callback fires; the source does not
        cancel these when the block stops. */
    method FireStart(now: real)
      requires Valid() && |pendingStarts| > 0
      modifies this`df1, this`df2, this`countdownRunning, this`times, this`pendingStarts
      ensures Valid()
      ensures pendingStarts == old(pendingStarts)[1..]
      ensures df1 == old(df1).(disabled := false) && df2 == old(df2).(disabled := false)
      ensures countdownRunning && times == old(times).(onset := Some(now))
    {
      pendingStarts := pendingStarts[1..];
      StartTrial(now);
    }

    /** `trial_finished`, the end of the countdown: the sliders are released
        and row `current_trial - 1` receives the trial's values, and the
        warnings follow that row; with the data already discarded nothing is
        recorded. The times are cleared in either case. */
    method TrialFinished(now: real)
      requires Valid()
      requires data.Some? ==> -|data.value| <= settings.currentTrial - 1 < |data.value|
      modifies this`countdownRunning, this`df1, this`df2, this`df1Touch, this`df2Touch, this`times,
               this`countdownLabel, this`data, this`warnings
      ensures Valid()
      ensures !countdownRunning && countdownLabel == "FINISHED"
      ensures df1 == old(df1).(disabled := true) && df2 == old(df2).(disabled := true)
      ensures df1Touch.None? && df2Touch.None? && times == NoTimes
      ensures old(data).None? ==> data.None? && warnings == old(warnings)
      ensures old(data).Some? ==>
                var row := RowOf(old(df1), old(df2), ReleaseAll(old(times), old(df1Touch), old(df2Touch), now));
                data == Some(old(data).value[RowIndex(settings.currentTrial - 1, |old(data).value|) := row])
                && warnings == SliderUseWarnings(row)
    {
      countdownRunning := false;
      countdownLabel := "FINISHED";
      ReleaseAndRecord(now);
    }

    /** `trial_finished` after the sound: the sliders are released, the
        trial's row recorded unless the data were discarded, and the times
        cleared. */
    method ReleaseAndRecord(now: real)
      requires Valid()
      requires data.Some? ==> -|data.value| <= settings.currentTrial - 1 < |data.value|
      modifies this`df1, this`df2, this`df1Touch, this`df2Touch, this`times, this`data, this`warnings
      ensures Valid()
      ensures df1 == old(df1).(disabled := true) && df2 == old(df2).(disabled := true)
      ensures df1Touch.None? && df2Touch.None? && times == NoTimes
      ensures old(data).None? ==> data.None? && warnings == old(warnings)
      ensures old(data).Some? ==>
                var row := RowOf(old(df1), old(df2), ReleaseAll(old(times), old(df1Touch), old(df2Touch), now));
                data == Some(old(data).value[RowIndex(settings.currentTrial - 1, |old(data).value|) := row])
                && warnings == SliderUseWarnings(row)
    {
      DisableSliders(now);
      if data.Some? {
        RecordTrial();
      }
      times := NoTimes;
    }

    /** The recording step of `trial_finished` and `check_slider_use`. */
    method RecordTrial()
      requires Valid() && data.Some? && -|data.value| <= settings.currentTrial - 1 < |data.value|
      modifies this`data, this`warnings
      ensures Valid()
      ensures var row := RowOf(df1, df2, times);
              data == Some(old(data).value[RowIndex(settings.currentTrial - 1, |old(data).value|) := row])
              && warnings == SliderUseWarnings(row)
    {
      var rows := data.value;
      var k := RowIndex(settings.currentTrial - 1, |rows|);
      data := Some(rows[k := RowOf(df1, df2, times)]);
      CheckSliderUse();
    }

    /** `check_slider_use` on the row of the current trial. */
    method CheckSliderUse()
      requires data.Some? && RowsWellFormed(data.value)
      requires -|data.value| <= settings.currentTrial - 1 < |data.value|
      modifies this`warnings
      ensures warnings == SliderUseWarnings(data.value[RowIndex(settings.currentTrial - 1, |data.value|)])
    {
      warnings := SliderUseWarnings(data.value[RowIndex(settings.currentTrial - 1, |data.value|)]);
    }

    /** `save_rating` */
    method SaveRating(rating: int)
      modifies this`metaData
      ensures metaData == Put(old(metaData), RatingKey, Int(rating))
    {
      metaData := Put(metaData, RatingKey, Int(rating));
    }

    /** What `data_collection` makes of the current block: the table scaled
        to 0-100 and rounded, the meta data describing it, and the session
        table with the block's row appended. */
    function CollectedRows(): seq<Row>
      requires data.Some? && RowsWellFormed(data.value)
      reads this`data
    {
      Scaled(data.value, round5)
    }

    function CollectedMeta(now: Instant): Dict
      requires data.Some? && RowsWellFormed(data.value)
      reads this`data, this`metaData, this`config, settings`currentUser, settings`currentTask, settings`currentBlock,
            settings.circleTask`nPracticeTrials
    {
      BlockMeta(metaData, deviceId, settings.currentUser, settings.currentTask,
                BlockNumber(config.isPractice, settings.currentBlock, settings.circleTask.nPracticeTrials),
                Treatment(config.isConstrained, config.constraint, config.target2Switch),
                now, md5Hex(CollectedRows()))
    }

    function CollectedSession(now: Instant): seq<seq<Value>>
      requires data.Some? && RowsWellFormed(data.value)
      reads this`data, this`metaData, this`config, settings`currentUser, settings`currentTask, settings`currentBlock,
            settings.circleTask`nPracticeTrials, this`sessionData, settings.circleTask`warmUp,
            settings.circleTask`trialDuration, settings.circleTask`coolDown
    {
      sessionData + [SessionRowOf(CollectedMeta(now), settings.circleTask.warmUp, settings.circleTask.trialDuration,
                                  settings.circleTask.coolDown, floatStr)]
    }

    /** What the first step of `pre_task_stopped` leaves: a testing block
        is collected, a practice block leaves data and manager alone. */
    predicate Submittable()
      reads this`config, this`data
    {
      !config.isPractice ==> data.Some? && RowsWellFormed(data.value)
    }

    function SubmittedData(): Option<seq<Row>>
      requires Submittable()
      reads this`config, this`data
    {
      if config.isPractice then data else Some(CollectedRows())
    }

    function SubmittedMeta(now: Instant): Dict
      requires Submittable()
      reads this`data, this`metaData, this`config, settings`currentUser, settings`currentTask, settings`currentBlock,
            settings.circleTask`nPracticeTrials, this`sessionData, settings.circleTask`warmUp,
            settings.circleTask`trialDuration, settings.circleTask`coolDown
    {
      if config.isPractice then metaData else CollectedMeta(now)
    }

    function SubmittedSession(now: Instant): seq<seq<Value>>
      requires Submittable()
      reads this`data, this`metaData, this`config, settings`currentUser, settings`currentTask, settings`currentBlock,
            settings.circleTask`nPracticeTrials, this`sessionData, settings.circleTask`warmUp,
            settings.circleTask`trialDuration, settings.circleTask`coolDown
    {
      if config.isPractice then sessionData else CollectedSession(now)
    }

    /** The records the data manager receives for the block, for storage
        and for e-mail. */
    function SubmittedRecords(now: Instant): seq<Dict>
      requires Submittable()
      reads this`data, this`metaData, this`config, settings`currentUser, settings`currentTask, settings`currentBlock,
            settings.circleTask`nPracticeTrials, this`sessionData, settings.circleTask`warmUp,
            settings.circleTask`trialDuration, settings.circleTask`coolDown
    {
      if config.isPractice then [] else [CsvRecord(CollectedMeta(now), Columns, DataTable(CollectedRows()))]
    }

    function SubmittedEmails(now: Instant): seq<Dict>
      requires Submittable()
      reads this`data, this`metaData, this`config, settings`currentUser, settings`currentTask, settings`currentBlock,
            settings.circleTask`nPracticeTrials, this`sessionData, settings.circleTask`warmUp,
            settings.circleTask`trialDuration, settings.circleTask`coolDown
    {
      if config.isPractice then [] else [EmailRecord(CollectedMeta(now), DataTable(CollectedRows()))]
    }

    /** The record `add_data` stores: the meta data with the CSV text. */
    function CsvRecord(meta: Dict, columns: seq<string>, table: Table): Dict
    {
      Put(meta, DataKey, Bytes(dataMgr.saveTxt(table, Join(columns, ","), "%s")))
    }

    /** The record `add_data_email` stores: the meta data with the pickle. */
    function EmailRecord(meta: Dict, table: Table): Dict
    {
      Put(meta, DataKey, Bytes(dataMgr.pickleDumps(table)))
    }

    /** The two records `add_session_data_to_manager` hands over for a
        session table. */
    function SessionCsvRecord(now: Instant, session: seq<seq<Value>>): Dict
      reads settings`currentTask, settings`currentUser
    {
      CsvRecord(SessionMeta(now, settings.currentTask, settings.currentUser), SessionColumns, SessionTable(session))
    }

    function SessionEmailRecord(now: Instant, session: seq<seq<Value>>): Dict
      reads settings`currentTask, settings`currentUser
    {
      EmailRecord(SessionCsvRecord(now, session), SessionEmailTable(session))
    }

    /** The meta data must hold an integer rating when the popup closes. */
    predicate HasRating()
      reads this
    {
      Get(metaData, RatingKey).Some? && Get(metaData, RatingKey).value.Int?
    }

    /** `collect_meta_data`: the context of the block's data. The rating
        saved before and any other entry keep their value. */
    method CollectMetaData(now: Instant)
      requires data.Some?
      modifies this`metaData
      ensures metaData == BlockMeta(old(metaData), deviceId, settings.currentUser, settings.currentTask,
                                    BlockNumber(config.isPractice, settings.currentBlock, settings.circleTask.nPracticeTrials),
                                    Treatment(config.isConstrained, config.constraint, config.target2Switch),
                                    now, md5Hex(data.value))
      ensures HasSessionKeys(metaData) <==> Get(old(metaData), RatingKey).Some?
      ensures HasColumns(metaData)
    {
      BlockMetaHasSessionKeys(metaData, deviceId, settings.currentUser, settings.currentTask,
                              BlockNumber(config.isPractice, settings.currentBlock, settings.circleTask.nPracticeTrials),
                              Treatment(config.isConstrained, config.constraint, config.target2Switch),
                              now, md5Hex(data.value));
      metaData := BlockMeta(metaData, deviceId, settings.currentUser, settings.currentTask,
                            BlockNumber(config.isPractice, settings.currentBlock, settings.circleTask.nPracticeTrials),
                            Treatment(config.isConstrained, config.constraint, config.target2Switch),
                            now, md5Hex(data.value));
    }

    /** `add_block_to_session` */
    method AddBlockToSession()
      requires HasSessionKeys(metaData)
      modifies this`sessionData
      ensures sessionData == old(sessionData)
              + [SessionRowOf(metaData, settings.circleTask.warmUp, settings.circleTask.trialDuration,
                              settings.circleTask.coolDown, floatStr)]
    {
      sessionData := sessionData
        + [SessionRowOf(metaData, settings.circleTask.warmUp, settings.circleTask.trialDuration,
                        settings.circleTask.coolDown, floatStr)];
    }

    /** `add_data_to_manager`: the data manager receives copies of the meta
        data, the CSV one and the pickled one. */
    method AddDataToManager()
      requires data.Some? && HasColumns(metaData)
      modifies dataMgr`data, dataMgr`dataEmail
      ensures dataMgr.data == old(dataMgr.data)
              + [Put(metaData, DataKey, Bytes(dataMgr.saveTxt(DataTable(data.value), Join(Columns, ","), "%s")))]
      ensures dataMgr.dataEmail == old(dataMgr.dataEmail) + [Put(metaData, DataKey, Bytes(dataMgr.pickleDumps(DataTable(data.value))))]
    {
      var table := DataTable(data.value);
      var _ := dataMgr.AddData(Get(metaData, ColumnsKey).value.names, table, metaData, "%s");
      var _ := dataMgr.AddDataEmail(table, metaData);
    }

    /** `data_collection`: the first two columns are scaled to 0-100 and the
        table rounded to five decimals, so that the hash in the meta data is
        the hash of exactly what is written (BlockMeta). */
    method DataCollection(now: Instant)
      requires data.Some? && RowsWellFormed(data.value) && Get(metaData, RatingKey).Some?
      modifies this`data, this`metaData, this`sessionData, dataMgr`data, dataMgr`dataEmail
      ensures data == Some(Scaled(old(data).value, round5))
      ensures metaData == BlockMeta(old(metaData), deviceId, settings.currentUser, settings.currentTask,
                                    BlockNumber(config.isPractice, settings.currentBlock, settings.circleTask.nPracticeTrials),
                                    Treatment(config.isConstrained, config.constraint, config.target2Switch),
                                    now, md5Hex(data.value))
      ensures sessionData == old(sessionData)
              + [SessionRowOf(metaData, settings.circleTask.warmUp, settings.circleTask.trialDuration,
                              settings.circleTask.coolDown, floatStr)]
      ensures dataMgr.data == old(dataMgr.data)
              + [Put(metaData, DataKey, Bytes(dataMgr.saveTxt(DataTable(data.value), Join(Columns, ","), "%s")))]
      ensures dataMgr.dataEmail == old(dataMgr.dataEmail) + [Put(metaData, DataKey, Bytes(dataMgr.pickleDumps(DataTable(data.value))))]
    {
      data := Some(Scaled(data.value, round5));
      CollectMetaData(now);
      AddBlockToSession();
      AddDataToManager();
    }

    /** `data_collection` as `pre_task_stopped` relies on it: the rows stay
        well formed, and each of the data manager's collections gains one
        entry, the first a "trials" table. */
    method DataCollectionOutcome(now: Instant)
      requires data.Some? && RowsWellFormed(data.value) && Get(metaData, RatingKey).Some?
      modifies this`data, this`metaData, this`sessionData, dataMgr`data, dataMgr`dataEmail
      ensures data == Some(old(CollectedRows())) && RowsWellFormed(data.value)
      ensures metaData == old(CollectedMeta(now)) && sessionData == old(CollectedSession(now))
      ensures dataMgr.data == old(dataMgr.data) + [CsvRecord(metaData, Columns, DataTable(data.value))]
      ensures dataMgr.dataEmail == old(dataMgr.dataEmail) + [EmailRecord(metaData, DataTable(data.value))]
      ensures Get(dataMgr.data[|old(dataMgr.data)|], TableKey) == Some(Text("trials"))
    {
      DataCollection(now);
      BlockRecordTable(old(metaData), deviceId, settings.currentUser, settings.currentTask,
                       BlockNumber(config.isPractice, settings.currentBlock, settings.circleTask.nPracticeTrials),
                       Treatment(config.isConstrained, config.constraint, config.target2Switch),
                       now, md5Hex(data.value), Bytes(dataMgr.saveTxt(DataTable(data.value), Join(Columns, ","), "%s")));
    }

    /** The invariant survives a step that changes only the table (keeping
        its rows well formed), the meta data, the session and the data
        manager. */
    twostate lemma ValidAfterCollection()
      requires old(Valid()) && interval.None?
      requires unchanged(this`df1, this`df2, this`df1Touch, this`df2Touch, this`interval, settings, settings.circleTask)
      requires data.Some? ==> RowsWellFormed(data.value)
      ensures Valid()
    {
    }

    /** `data_collection` keeps the screen's invariant. */
    method CollectTestingBlock(now: Instant)
      requires Valid() && interval.None? && data.Some? && Get(metaData, RatingKey).Some?
      modifies this`data, this`metaData, this`sessionData, dataMgr`data, dataMgr`dataEmail
      ensures Valid()
      ensures data == Some(old(CollectedRows()))
      ensures metaData == old(CollectedMeta(now)) && sessionData == old(CollectedSession(now))
      ensures dataMgr.data == old(dataMgr.data) + [CsvRecord(metaData, Columns, DataTable(data.value))]
      ensures dataMgr.dataEmail == old(dataMgr.dataEmail) + [EmailRecord(metaData, DataTable(data.value))]
      ensures Get(dataMgr.data[|old(dataMgr.data)|], TableKey) == Some(Text("trials"))
    {
      DataCollectionOutcome(now);
      ValidAfterCollection();
    }

    /** `add_session_data_to_manager` as `pre_task_stopped` relies on it. */
    method HandOverSession(now: Instant)
      modifies dataMgr`data, dataMgr`dataEmail
      ensures dataMgr.data == old(dataMgr.data) + [SessionCsvRecord(now, sessionData)]
      ensures dataMgr.dataEmail == old(dataMgr.dataEmail) + [SessionEmailRecord(now, sessionData)]
      ensures Get(dataMgr.data[|dataMgr.data| - 1], TableKey) == Some(Text("session"))
    {
      AddSessionDataToManager(now);
    }

    /** `add_session_data_to_manager`: the session's table, described by its
        own meta data; the e-mail copy carries the column names as first
        row and keeps the CSV entry's place for the pickled data. */
    method AddSessionDataToManager(now: Instant)
      modifies dataMgr`data, dataMgr`dataEmail
      ensures var stored := Put(SessionMeta(now, settings.currentTask, settings.currentUser), DataKey,
                                Bytes(dataMgr.saveTxt(SessionTable(sessionData), Join(SessionColumns, ","), "%s")));
              dataMgr.data == old(dataMgr.data) + [stored]
              && dataMgr.dataEmail == old(dataMgr.dataEmail)
                 + [Put(stored, DataKey, Bytes(dataMgr.pickleDumps(SessionEmailTable(sessionData))))]
    {
      var meta := SessionMeta(now, settings.currentTask, settings.currentUser);
      var stored := dataMgr.AddData(SessionColumns, SessionTable(sessionData), meta, "%s");
      var _ := dataMgr.AddDataEmail(SessionEmailTable(sessionData), stored);
    }

    /** `pre_task_stopped`, run when the rating popup is dismissed: a
        testing block's data go to the data manager, a practising
        participant who rated the block hard is advised to practise more, and
        after the last block the session table is handed over as well. */
    method PreTaskStopped(now: Instant)
      requires Valid() && interval.None? && HasRating()
      requires !config.isPractice ==> data.Some?
      modifies this`ratingPopupOpen, this`data, this`metaData, this`sessionData, this`infoMessages,
               this`taskStopped, dataMgr`data, dataMgr`dataEmail
      ensures Valid()
      ensures !ratingPopupOpen
      ensures var last := WasLastBlock(settings.currentBlock, settings.circleTask.nBlocks,
                                       settings.circleTask.nPracticeTrials);
              var session := old(SubmittedSession(now));
              taskStopped == old(taskStopped) + [last]
              && dataMgr.data == old(dataMgr.data) + old(SubmittedRecords(now))
                                 + (if last then [SessionCsvRecord(now, session)] else [])
              && dataMgr.dataEmail == old(dataMgr.dataEmail) + old(SubmittedEmails(now))
                                      + (if last then [SessionEmailRecord(now, session)] else [])
              && (last ==> data.None? && metaData == EmptyDict && sessionData == [])
              && (!last ==> data == old(SubmittedData()) && metaData == old(SubmittedMeta(now)) && sessionData == session)
      ensures infoMessages == old(infoMessages)
              + (if config.isPractice && Get(old(metaData), RatingKey).value.i > HardRating then [PracticeMoreMessage] else [])
    {
      var last := WasLastBlock(settings.currentBlock, settings.circleTask.nBlocks, settings.circleTask.nPracticeTrials);
      ghost var session := SubmittedSession(now);
      SubmitBlock(now);
      assert sessionData == session;
      EndBlock(last, now);
    }

    /** The first step of `pre_task_stopped`: a testing block is collected,
        a practice block rated hard gets the hint. */
    method SubmitBlock(now: Instant)
      requires Valid() && interval.None? && HasRating()
      requires !config.isPractice ==> data.Some?
      modifies this`data, this`metaData, this`sessionData, this`infoMessages, dataMgr`data, dataMgr`dataEmail
      ensures Valid()
      ensures data == old(SubmittedData()) && metaData == old(SubmittedMeta(now))
              && sessionData == old(SubmittedSession(now))
      ensures dataMgr.data == old(dataMgr.data) + old(SubmittedRecords(now))
              && dataMgr.dataEmail == old(dataMgr.dataEmail) + old(SubmittedEmails(now))
      ensures infoMessages == old(infoMessages)
              + (if config.isPractice && Get(old(metaData), RatingKey).value.i > HardRating then [PracticeMoreMessage] else [])
    {
      if !config.isPractice {
        CollectTestingBlock(now);
      } else if Get(metaData, RatingKey).value.i > HardRating {
        infoMessages := infoMessages + [PracticeMoreMessage];
      }
    }

    /** The last step of `pre_task_stopped`: the session table after the
        last block, then `on_task_stopped`. */
    method EndBlock(last: bool, now: Instant)
      requires Valid() && interval.None?
      modifies this`ratingPopupOpen, this`data, this`metaData, this`sessionData, this`taskStopped, dataMgr`data, dataMgr`dataEmail
      ensures Valid() && !ratingPopupOpen
      ensures taskStopped == old(taskStopped) + [last]
      ensures last ==> data.None? && metaData == EmptyDict && sessionData == []
      ensures last ==> dataMgr.data == old(dataMgr.data) + [SessionCsvRecord(now, old(sessionData))]
                       && dataMgr.dataEmail == old(dataMgr.dataEmail) + [SessionEmailRecord(now, old(sessionData))]
      ensures !last ==> data == old(data) && metaData == old(metaData) && sessionData == old(sessionData)
                        && dataMgr.data == old(dataMgr.data) && dataMgr.dataEmail == old(dataMgr.dataEmail)
    {
      if last {
        HandOverSession(now);
      }
      DispatchTaskStopped(last);
      ratingPopupOpen := false;
    }
  }
}
