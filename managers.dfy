/** The screen manager (src/widgets/managers.py): the back button, the
    counter of presses on the home screen, and where the app goes when a
    block ends. Screens are known by their names; notifications, quitting,
    closing the settings and the web view's back handler are recorded as
    events. */
module Managers {
  import Settings
  import CircleTask

  /** The key code of Escape and of Android's back button. */
  const EscapeKey: int := 27

  const HomeScreen: string := "Home"
  const SettingsScreen: string := "Settings"
  const CircleTaskScreen: string := "Circle Task"
  const WebviewScreen: string := "Webview"
  const OutroScreen: string := "Outro"
  const QuitHint: string := "Press again to quit."

  /** `task_instructions`: the instruction screen of each task. */
  const TaskInstructions: map<string, string> := map[Settings.CircleTaskName := "Instructions CT"]

  class UCMManager {
    const settings: Settings.SettingsContainer
    const circleTask: CircleTask.ScreenCircleTask
    var current: string
    /** How often the back button was pressed on the home screen. */
    var nHomeEsc: int
    var notifications: seq<string>
    var quitRequested: bool
    /** Calls of the app's `close_settings` and of the web view's
        `key_back_handler`. */
    var settingsCloses: nat
    var webviewBacks: nat

    /** The counter only counts presses on the home screen. */
    predicate Valid()
      reads this
    {
      nHomeEsc >= 0 && (nHomeEsc > 0 ==> current == HomeScreen)
    }

    constructor (settings: Settings.SettingsContainer, circleTask: CircleTask.ScreenCircleTask, current: string)
      ensures Valid()
      ensures this.settings == settings && this.circleTask == circleTask && this.current == current
      ensures nHomeEsc == 0 && notifications == [] && !quitRequested && settingsCloses == 0 && webviewBacks == 0
    {
      this.settings := settings;
      this.circleTask := circleTask;
      this.current := current;
      nHomeEsc := 0;
      notifications := [];
      quitRequested := false;
      settingsCloses := 0;
      webviewBacks := 0;
    }

    /** Assigning `current`: Kivy calls `on_current` only when the screen
        changes, and a change resets the counter. */
    method SetCurrent(value: string)
      requires Valid()
      modifies this`current, this`nHomeEsc
      ensures Valid()
      ensures current == value
      ensures nHomeEsc == if value != old(current) then 0 else old(nHomeEsc)
    {
      if value != current {
        nHomeEsc := 0;
      }
      current := value;
    }

    /** `go_home` */
    method GoHome()
      requires Valid()
      modifies this`current, this`nHomeEsc
      ensures Valid()
      ensures current == HomeScreen
      ensures nHomeEsc == if old(current) != HomeScreen then 0 else old(nHomeEsc)
    {
      SetCurrent(HomeScreen);
    }

    /** `key_input`: only the back key is handled. On the home screen the
        first press shows a hint and a second one quits; a running Circle
        Task is interrupted; every other screen goes home. */
    method KeyInput(key: int, now: real) returns (handled: bool)
      requires Valid()
      requires key == EscapeKey && current == CircleTaskScreen ==> circleTask.Valid()
      modifies this`current, this`nHomeEsc, this`notifications, this`quitRequested, this`settingsCloses,
               this`webviewBacks, circleTask`interval, circleTask`df1, circleTask`df2, circleTask`times,
               circleTask`sessionData, circleTask`metaData, circleTask`data, circleTask`warningMessages,
               circleTask`taskStopped, circleTask`ratingPopupOpen, circleTask.dataMgr`isInvalid
      ensures Valid()
      ensures handled <==> key == EscapeKey
      ensures key != EscapeKey ==>
                current == old(current) && nHomeEsc == old(nHomeEsc) && notifications == old(notifications)
                && quitRequested == old(quitRequested) && settingsCloses == old(settingsCloses)
                && webviewBacks == old(webviewBacks)
      ensures key != EscapeKey || old(current) != CircleTaskScreen ==> unchanged(circleTask, circleTask.dataMgr)
      ensures key == EscapeKey && old(current) == HomeScreen ==>
                current == HomeScreen && nHomeEsc == old(nHomeEsc) + 1
                && notifications == old(notifications) + (if nHomeEsc == 1 then [QuitHint] else [])
                && quitRequested == (old(quitRequested) || nHomeEsc > 1)
      ensures key == EscapeKey && old(current) == SettingsScreen ==>
                current == old(current) && settingsCloses == old(settingsCloses) + 1
      ensures key == EscapeKey && old(current) != HomeScreen && old(current) != SettingsScreen ==>
                current == HomeScreen && nHomeEsc == 0
                && webviewBacks == old(webviewBacks) + (if old(current) == WebviewScreen then 1 else 0)
      ensures key == EscapeKey && old(current) == CircleTaskScreen ==>
                circleTask.interval.None? && circleTask.data.None? && circleTask.sessionData == []
                && circleTask.taskStopped == old(circleTask.taskStopped)
      ensures key == EscapeKey && old(current) != HomeScreen ==>
                notifications == old(notifications) && quitRequested == old(quitRequested)
    {
      if key != EscapeKey {
        return false;
      }
      if current == HomeScreen {
        nHomeEsc := nHomeEsc + 1;
        if nHomeEsc == 1 {
          notifications := notifications + [QuitHint];
        }
        if nHomeEsc > 1 {
          quitRequested := true;
        }
      } else if current == SettingsScreen {
        settingsCloses := settingsCloses + 1;
      } else if current == CircleTaskScreen {
        circleTask.StopTask(true, now);
        GoHome();
      } else if current == WebviewScreen {
        webviewBacks := webviewBacks + 1;
        GoHome();
      } else {
        GoHome();
      }
      return true;
    }

    /** `task_finished`, the listener of the Circle Task's
        `on_task_stopped`: the outro after the last block, otherwise the
        task's instructions for the next block. A task without an
        instruction screen raises KeyError. */
    method TaskFinished(wasLastBlock: bool) returns (raised: bool)
      requires Valid()
      modifies this`current, this`nHomeEsc
      ensures Valid()
      ensures raised <==> !wasLastBlock && settings.task !in TaskInstructions
      ensures wasLastBlock ==> current == OutroScreen
      ensures !wasLastBlock && !raised ==> current == TaskInstructions[settings.task]
      ensures raised ==> current == old(current) && nHomeEsc == old(nHomeEsc)
      ensures !raised ==> nHomeEsc == if current != old(current) then 0 else old(nHomeEsc)
    {
      if wasLastBlock {
        SetCurrent(OutroScreen);
        return false;
      }
      if settings.task !in TaskInstructions {
        return true;
      }
      SetCurrent(TaskInstructions[settings.task]);
      return false;
    }

    /** Two presses of the back key on the home screen: a hint, then the
        app quits. */
    method PressBackTwiceAtHome(now: real)
      requires Valid() && current == HomeScreen && nHomeEsc == 0
      modifies this`current, this`nHomeEsc, this`notifications, this`quitRequested, this`settingsCloses,
               this`webviewBacks, circleTask`interval, circleTask`df1, circleTask`df2, circleTask`times,
               circleTask`sessionData, circleTask`metaData, circleTask`data, circleTask`warningMessages,
               circleTask`taskStopped, circleTask`ratingPopupOpen, circleTask.dataMgr`isInvalid
      ensures current == HomeScreen && nHomeEsc == 2 && quitRequested
      ensures notifications == old(notifications) + [QuitHint]
    {
      var _ := KeyInput(EscapeKey, now);
      var _ := KeyInput(EscapeKey, now);
    }
  }

  /** The Circle Task's instructions are the only task routing the source
      knows. */
  lemma CircleTaskRouting()
    ensures Settings.CircleTaskName in TaskInstructions
    ensures TaskInstructions[Settings.CircleTaskName] == "Instructions CT"
    ensures forall t :: t in TaskInstructions ==> t == Settings.CircleTaskName
  {
  }
}
