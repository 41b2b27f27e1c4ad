/**
 * The application state held by the provider, the action payloads, and the
 * default state the provider starts from.
 */
module State {
  import opened Optional

  datatype TaskCategory = Inbox | Today | Done

  datatype Priority = Low | Medium | High

  datatype Task = Task(
    id: string,
    title: string,
    completed: bool,
    category: TaskCategory,
    createdAt: int,
    priority: Option<Priority>)

  datatype TimerKind = Pomodoro | Custom

  /**
   * The countdown record. Every field may be missing: the record restored from
   * storage holds only `customColor`, and loading replaces the whole record.
   * A missing `timeLeft` stands for both `undefined` and `NaN`, which behave
   * alike under every read the program makes (comparisons are false,
   * arithmetic gives `NaN`).
   */
  datatype Timer = Timer(
    isActive: Option<bool>,
    isPaused: Option<bool>,
    timeLeft: Option<int>,
    isBreak: Option<bool>,
    kind: Option<TimerKind>,
    customColor: Option<string>)

  /** How JavaScript reads a possibly missing flag in a condition. */
  predicate Truthy(b: Option<bool>) {
    b == Some(true)
  }

  datatype BmiCategory = Underweight | Normal | Overweight | Obese

  datatype Bmi = Bmi(height: real, weight: real, result: Option<real>, category: Option<BmiCategory>)

  datatype Playlist = Lofi | Nature

  datatype Music = Music(isPlaying: bool, currentTrack: string, volume: real, playlist: Playlist)

  datatype Theme = Light | Dark | Gradient

  datatype AppState = AppState(
    dailyFocus: string,
    tasks: seq<Task>,
    currentTimer: Timer,
    bmi: Bmi,
    music: Music,
    notes: string,
    quote: string,
    greeting: string,
    backgroundImage: string,
    backgroundTheme: Theme)

  /** The payload of ADD_TASK: a task without its `id` and `createdAt`. */
  datatype TaskDraft = TaskDraft(title: string, completed: bool, category: TaskCategory, priority: Option<Priority>)

  /** A partial task: the fields present replace those of the task it is spread over. */
  datatype TaskPatch = TaskPatch(
    id: Option<string>,
    title: Option<string>,
    completed: Option<bool>,
    category: Option<TaskCategory>,
    createdAt: Option<int>,
    priority: Option<Priority>)

  const NoTaskChanges := TaskPatch(None, None, None, None, None, None)

  /** A partial music record, for SET_MUSIC. */
  datatype MusicPatch = MusicPatch(
    isPlaying: Option<bool>,
    currentTrack: Option<string>,
    volume: Option<real>,
    playlist: Option<Playlist>)

  const NoMusicChanges := MusicPatch(None, None, None, None)

  /** A partial application state, for LOAD_FROM_STORAGE: present fields replace whole top-level fields. */
  datatype StatePatch = StatePatch(
    dailyFocus: Option<string>,
    tasks: Option<seq<Task>>,
    currentTimer: Option<Timer>,
    bmi: Option<Bmi>,
    music: Option<Music>,
    notes: Option<string>,
    quote: Option<string>,
    greeting: Option<string>,
    backgroundImage: Option<string>,
    backgroundTheme: Option<Theme>)

  const NoStateChanges := StatePatch(None, None, None, None, None, None, None, None, None, None)

  datatype Action =
    | SetDailyFocus(focus: string)
    | AddTask(draft: TaskDraft)
    | UpdateTask(id: string, updates: TaskPatch)
    | DeleteTask(taskId: string)
    | StartTimer(duration: int, kind: TimerKind)
    | PauseTimer
    | ResetTimer
    | TickTimer
    | SetTimerColor(color: string)
    | UpdateBmi(height: real, weight: real)
    | SetMusic(changes: MusicPatch)
    | SetNotes(notes: string)
    | SetBackgroundTheme(theme: Theme)
    | LoadFromStorage(payload: StatePatch)

  /** Seconds on a fresh pomodoro (25 minutes) and a fresh custom countdown (30 minutes). */
  const PomodoroSeconds := 25 * 60
  const CustomSeconds := 30 * 60

  const InitialTimer := Timer(Some(false), Some(false), Some(PomodoroSeconds), Some(false), Some(Pomodoro), Some("teal"))

  const InitialState := AppState(
    "",
    [],
    InitialTimer,
    Bmi(0.0, 0.0, None, None),
    Music(false, "lofi-1", 0.7, Lofi),
    "",
    "The way to get started is to quit talking and begin doing.",
    "Good morning",
    "https://images.unsplash.com/photo-1506905925346-21bda4d32df4?ixlib=rb-4.0.3&auto=format&fit=crop&w=2000&q=80",
    Gradient)
}
