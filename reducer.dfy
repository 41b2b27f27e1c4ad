/**
 * The application reducer: a total function from a state and an action to the
 * next state. The clock reading that ADD_TASK takes is the parameter `now`.
 */
module Reducer {
  import opened Optional
  import opened Text
  import opened Seqs
  import opened State

  /** The new task of ADD_TASK: the draft's fields, with `id` and `createdAt` taken from the clock. */
  function Stamp(d: TaskDraft, now: nat): Task {
    Task(Decimal(now), d.title, d.completed, d.category, now, d.priority)
  }

  /** `{ ...task, ...updates }` */
  function Merge(t: Task, u: TaskPatch): Task {
    Task(u.id.GetOr(t.id), u.title.GetOr(t.title), u.completed.GetOr(t.completed),
         u.category.GetOr(t.category), u.createdAt.GetOr(t.createdAt),
         if u.priority.Some? then u.priority else t.priority)
  }

  /** `tasks.map(task => task.id === id ? { ...task, ...updates } : task)` */
  function UpdateWhere(tasks: seq<Task>, id: string, u: TaskPatch): seq<Task> {
    seq(|tasks|, i requires 0 <= i < |tasks| => if tasks[i].id == id then Merge(tasks[i], u) else tasks[i])
  }

  /** `tasks.filter(task => task.id !== id)` */
  function Without(tasks: seq<Task>, id: string): seq<Task> {
    Filter(tasks, (t: Task) => t.id != id)
  }

  function Started(t: Timer, duration: int, kind: TimerKind): Timer {
    t.(isActive := Some(true), isPaused := Some(false), timeLeft := Some(duration), kind := Some(kind))
  }

  function Paused(t: Timer): Timer {
    t.(isPaused := Some(!Truthy(t.isPaused)))
  }

  /** The countdown RESET_TIMER restores: 25 minutes for a pomodoro, 30 for anything else. */
  function ResetSeconds(kind: Option<TimerKind>): nat {
    if kind == Some(Pomodoro) then PomodoroSeconds else CustomSeconds
  }

  function Reset(t: Timer): Timer {
    t.(isActive := Some(false), isPaused := Some(false), timeLeft := Some(ResetSeconds(t.kind)), isBreak := Some(false))
  }

  /** TICK_TIMER: at one second or less the countdown ends and the break flag flips. */
  function Ticked(t: Timer): Timer {
    match t.timeLeft
    case Some(n) =>
      if n <= 1 then t.(isActive := Some(false), timeLeft := Some(0), isBreak := Some(!Truthy(t.isBreak)))
      else t.(timeLeft := Some(n - 1))
    case None => t  // `undefined <= 1` is false and `undefined - 1` is NaN
  }

  /** `weight / (height / 100) ** 2`, exactly. */
  function BmiValue(height: real, weight: real): real
    requires height != 0.0
  {
    var m := height / 100.0;
    assert m * m != 0.0 by { assert m != 0.0; }
    weight / (m * m)
  }

  function Classify(v: real): BmiCategory {
    if v < 18.5 then Underweight
    else if v < 25.0 then Normal
    else if v < 30.0 then Overweight
    else Obese
  }

  /** `Math.round(v * 10) / 10` on exact reals: the nearest tenth, halves rounded up. */
  function RoundTenth(v: real): (r: real)
    ensures v - 0.05 < r <= v + 0.05
  {
    ((v * 10.0 + 0.5).Floor as real) / 10.0
  }

  function Measured(height: real, weight: real): Bmi
    requires height != 0.0
  {
    var v := BmiValue(height, weight);
    Bmi(height, weight, Some(RoundTenth(v)), Some(Classify(v)))
  }

  /** `{ ...music, ...changes }` */
  function MergeMusic(m: Music, p: MusicPatch): Music {
    Music(p.isPlaying.GetOr(m.isPlaying), p.currentTrack.GetOr(m.currentTrack),
          p.volume.GetOr(m.volume), p.playlist.GetOr(m.playlist))
  }

  /** `{ ...state, ...payload }`: present top-level fields replace the state's whole fields. */
  function MergeState(s: AppState, p: StatePatch): AppState {
    AppState(p.dailyFocus.GetOr(s.dailyFocus), p.tasks.GetOr(s.tasks),
             p.currentTimer.GetOr(s.currentTimer), p.bmi.GetOr(s.bmi), p.music.GetOr(s.music),
             p.notes.GetOr(s.notes), p.quote.GetOr(s.quote), p.greeting.GetOr(s.greeting),
             p.backgroundImage.GetOr(s.backgroundImage), p.backgroundTheme.GetOr(s.backgroundTheme))
  }

  /** What the reducer needs of an action: UPDATE_BMI divides by the height. */
  predicate Admissible(a: Action) {
    a.UpdateBmi? ==> a.height != 0.0
  }

  function Apply(s: AppState, a: Action, now: nat): AppState
    requires Admissible(a)
  {
    match a
    case SetDailyFocus(text) => s.(dailyFocus := text)
    case AddTask(d) => s.(tasks := s.tasks + [Stamp(d, now)])
    case UpdateTask(id, u) => s.(tasks := UpdateWhere(s.tasks, id, u))
    case DeleteTask(id) => s.(tasks := Without(s.tasks, id))
    case StartTimer(d, k) => s.(currentTimer := Started(s.currentTimer, d, k))
    case PauseTimer => s.(currentTimer := Paused(s.currentTimer))
    case ResetTimer => s.(currentTimer := Reset(s.currentTimer))
    case TickTimer => s.(currentTimer := Ticked(s.currentTimer))
    case SetTimerColor(c) => s.(currentTimer := s.currentTimer.(customColor := Some(c)))
    case UpdateBmi(h, w) => s.(bmi := Measured(h, w))
    case SetMusic(p) => s.(music := MergeMusic(s.music, p))
    case SetNotes(text) => s.(notes := text)
    case SetBackgroundTheme(th) => s.(backgroundTheme := th)
    case LoadFromStorage(p) => MergeState(s, p)
  }

  // ---------------------------------------------------------------- tasks

  /** ADD_TASK appends one task, keeps the earlier ones in order, and nothing else changes. */
  lemma AddTaskAppends(s: AppState, d: TaskDraft, now: nat)
    ensures var r := Apply(s, AddTask(d), now);
      && |r.tasks| == |s.tasks| + 1
      && r.tasks[..|s.tasks|] == s.tasks
      && r == s.(tasks := r.tasks)
      && var t := r.tasks[|s.tasks|];
         t.title == d.title && t.completed == d.completed && t.category == d.category
         && t.priority == d.priority && t.createdAt == now && t.id == Decimal(now)
  {
  }

  predicate UniqueIds(tasks: seq<Task>) {
    forall i, j :: 0 <= i < j < |tasks| ==> tasks[i].id != tasks[j].id
  }

  /** Two tasks added within the same millisecond get the same id. */
  lemma SameMillisecondCollides(s: AppState, d1: TaskDraft, d2: TaskDraft, now: nat)
    ensures var r := Apply(Apply(s, AddTask(d1), now), AddTask(d2), now);
      |r.tasks| == |s.tasks| + 2 && !UniqueIds(r.tasks)
  {
    var r := Apply(Apply(s, AddTask(d1), now), AddTask(d2), now);
    assert r.tasks[|s.tasks|].id == r.tasks[|s.tasks| + 1].id;
  }

  /** Every id was stamped by ADD_TASK from a clock reading earlier than `now`. */
  predicate StampedBefore(tasks: seq<Task>, now: nat) {
    forall i :: 0 <= i < |tasks| ==> 0 <= tasks[i].createdAt < now && tasks[i].id == Decimal(tasks[i].createdAt)
  }

  /** Ids stay unique as long as the clock has moved on since the last task was added. */
  lemma AddTaskKeepsIdsUnique(s: AppState, d: TaskDraft, now: nat)
    requires UniqueIds(s.tasks) && StampedBefore(s.tasks, now)
    ensures UniqueIds(Apply(s, AddTask(d), now).tasks)
  {
    var r := Apply(s, AddTask(d), now).tasks;
    forall i | 0 <= i < |s.tasks|
      ensures r[i].id != r[|s.tasks|].id
    {
      if r[i].id == r[|s.tasks|].id {
        DecimalInjective(s.tasks[i].createdAt, now);
      }
    }
  }

  /** UPDATE_TASK keeps the length and every task with another id, and merges the patch into the rest. */
  lemma UpdateTaskPointwise(s: AppState, id: string, u: TaskPatch, now: nat)
    ensures var r := Apply(s, UpdateTask(id, u), now);
      && |r.tasks| == |s.tasks|
      && r == s.(tasks := r.tasks)
      && (forall i :: 0 <= i < |s.tasks| && s.tasks[i].id != id ==> r.tasks[i] == s.tasks[i])
      && (forall i :: 0 <= i < |s.tasks| && s.tasks[i].id == id ==> r.tasks[i] == Merge(s.tasks[i], u))
  {
  }

  /** UPDATE_TASK for an id no task has changes nothing. */
  lemma UpdateMissingIdIsNoOp(s: AppState, id: string, u: TaskPatch, now: nat)
    requires forall i :: 0 <= i < |s.tasks| ==> s.tasks[i].id != id
    ensures Apply(s, UpdateTask(id, u), now) == s
  {
    assert UpdateWhere(s.tasks, id, u) == s.tasks;
  }

  /** A patch without an `id` keeps every task's id, so it keeps the ids unique. */
  lemma UpdateKeepsIds(s: AppState, id: string, u: TaskPatch, now: nat)
    requires u.id.None?
    ensures var r := Apply(s, UpdateTask(id, u), now);
      |r.tasks| == |s.tasks| && forall i :: 0 <= i < |s.tasks| ==> r.tasks[i].id == s.tasks[i].id
    ensures UniqueIds(s.tasks) ==> UniqueIds(Apply(s, UpdateTask(id, u), now).tasks)
  {
  }

  /**
   * DELETE_TASK removes exactly the tasks with that id and keeps the others in
   * their order, every copy of them: the result is a subsequence holding only
   * tasks with another id, as many as the list has.
   */
  lemma DeleteTaskRemoves(s: AppState, id: string, now: nat)
    ensures var r := Apply(s, DeleteTask(id), now);
      && r == s.(tasks := r.tasks)
      && (forall t :: t in r.tasks <==> t in s.tasks && t.id != id)
      && IsSubsequence(r.tasks, s.tasks)
      && |r.tasks| == Count(s.tasks, (t: Task) => t.id != id)
  {
    FilterIsSubsequence(s.tasks, (t: Task) => t.id != id);
    CountIsFilterLength(s.tasks, (t: Task) => t.id != id, (t: Task) => t.id != id);
  }

  /** Deleting the same id twice is deleting it once. */
  lemma DeleteTaskIdempotent(s: AppState, id: string, now: nat)
    ensures Apply(Apply(s, DeleteTask(id), now), DeleteTask(id), now) == Apply(s, DeleteTask(id), now)
  {
    FilterIdempotent(s.tasks, (t: Task) => t.id != id);
  }

  /** Deleting an id no task has changes nothing. */
  lemma DeleteMissingIdIsNoOp(s: AppState, id: string, now: nat)
    requires forall i :: 0 <= i < |s.tasks| ==> s.tasks[i].id != id
    ensures Apply(s, DeleteTask(id), now) == s
  {
    FilterKeepsAll(s.tasks, (t: Task) => t.id != id);
  }

  // ---------------------------------------------------------------- timer

  /** START_TIMER runs the countdown from `duration`; the break flag and the colour stay. */
  lemma StartTimerRuns(s: AppState, d: int, k: TimerKind, now: nat)
    ensures var t := Apply(s, StartTimer(d, k), now).currentTimer;
      && Truthy(t.isActive) && !Truthy(t.isPaused) && t.timeLeft == Some(d) && t.kind == Some(k)
      && t.isBreak == s.currentTimer.isBreak && t.customColor == s.currentTimer.customColor
      && Apply(s, StartTimer(d, k), now) == s.(currentTimer := t)
  {
  }

  /** PAUSE_TIMER flips only the pause flag; pausing twice restores a timer whose flag is set. */
  lemma PauseTwiceRestores(s: AppState, now: nat)
    ensures var t := Apply(s, PauseTimer, now).currentTimer;
      Truthy(t.isPaused) == !Truthy(s.currentTimer.isPaused) && t == s.currentTimer.(isPaused := t.isPaused)
    ensures s.currentTimer.isPaused.Some? ==>
      Apply(Apply(s, PauseTimer, now), PauseTimer, now) == s
  {
    var t := s.currentTimer;
    if t.isPaused.Some? {
      if t.isPaused.value {
        assert Paused(t).isPaused == Some(false);
      } else {
        assert Paused(t).isPaused == Some(true);
        assert Paused(Paused(t)).isPaused == Some(false) == t.isPaused;
      }
    }
  }

  /** RESET_TIMER stops the countdown and restores the default length of the timer's kind. */
  lemma ResetTimerRestores(s: AppState, now: nat)
    ensures var t := Apply(s, ResetTimer, now).currentTimer;
      && !Truthy(t.isActive) && !Truthy(t.isPaused) && !Truthy(t.isBreak)
      && t.timeLeft == Some(if s.currentTimer.kind == Some(Pomodoro) then 1500 else 1800)
      && t.kind == s.currentTimer.kind && t.customColor == s.currentTimer.customColor
      && Apply(s, ResetTimer, now) == s.(currentTimer := t)
  {
  }

  /** Resetting after a custom start gives the custom default, not the started length. */
  lemma ResetAfterCustomStart(s: AppState, d: int, now: nat)
    ensures Apply(Apply(s, StartTimer(d, Custom), now), ResetTimer, now).currentTimer.timeLeft == Some(1800)
  {
  }

  /** With two seconds or more left, a tick only counts down by one. */
  lemma TickCountsDown(s: AppState, now: nat)
    requires s.currentTimer.timeLeft.Some? && s.currentTimer.timeLeft.value >= 2
    ensures Apply(s, TickTimer, now) == s.(currentTimer := s.currentTimer.(timeLeft := Some(s.currentTimer.timeLeft.value - 1)))
  {
  }

  /** With one second or less left, a tick ends the countdown at zero and flips the break flag. */
  lemma TickFinishes(s: AppState, now: nat)
    requires s.currentTimer.timeLeft.Some? && s.currentTimer.timeLeft.value <= 1
    ensures var t := Apply(s, TickTimer, now).currentTimer;
      && t.timeLeft == Some(0) && !Truthy(t.isActive)
      && Truthy(t.isBreak) == !Truthy(s.currentTimer.isBreak)
      && t.isPaused == s.currentTimer.isPaused && t.kind == s.currentTimer.kind
      && t.customColor == s.currentTimer.customColor
      && Apply(s, TickTimer, now) == s.(currentTimer := t)
  {
  }

  /** A tick never takes a non-negative countdown below zero. */
  lemma TickKeepsNonNegative(s: AppState, now: nat)
    requires s.currentTimer.timeLeft.Some? && s.currentTimer.timeLeft.value >= 0
    ensures var t := Apply(s, TickTimer, now).currentTimer;
      t.timeLeft.Some? && 0 <= t.timeLeft.value <= s.currentTimer.timeLeft.value
  {
  }

  // ---------------------------------------------------------------- BMI

  /** The BMI bands as half-open intervals. */
  predicate InBand(c: BmiCategory, v: real) {
    match c
    case Underweight => v < 18.5
    case Normal => 18.5 <= v < 25.0
    case Overweight => 25.0 <= v < 30.0
    case Obese => 30.0 <= v
  }

  /** Each value falls in exactly one band, and Classify names that band. */
  lemma ClassifyIsBand(v: real, c: BmiCategory)
    ensures Classify(v) == c <==> InBand(c, v)
  {
  }

  /** UPDATE_BMI stores the inputs, the BMI to one decimal, and its band. */
  lemma UpdateBmiStores(s: AppState, h: real, w: real, now: nat)
    requires h != 0.0
    ensures var b := Apply(s, UpdateBmi(h, w), now).bmi;
      && b.height == h && b.weight == w
      && b.result.Some? && BmiValue(h, w) - 0.05 < b.result.value <= BmiValue(h, w) + 0.05
      && b.category.Some? && InBand(b.category.value, BmiValue(h, w))
      && Apply(s, UpdateBmi(h, w), now) == s.(bmi := b)
  {
  }

  /** 170 cm and 70 kg: 24.22, shown as 24.2, Normal. */
  lemma UpdateBmiNormalExample(s: AppState, now: nat)
    ensures Apply(s, UpdateBmi(170.0, 70.0), now).bmi == Bmi(170.0, 70.0, Some(24.2), Some(Normal))
  {
    assert BmiValue(170.0, 70.0) == 70.0 / 2.89;
  }

  /** 160 cm and 45 kg: about 17.6, Underweight. */
  lemma UpdateBmiUnderweightExample(s: AppState, now: nat)
    ensures Apply(s, UpdateBmi(160.0, 45.0), now).bmi.category == Some(Underweight)
  {
    assert BmiValue(160.0, 45.0) == 45.0 / 2.56;
  }

  // ---------------------------------------------------------------- records

  /** SET_MUSIC replaces the music fields present in the payload and keeps the others. */
  lemma SetMusicMerges(s: AppState, p: MusicPatch, now: nat)
    ensures var m := Apply(s, SetMusic(p), now).music;
      && (p.isPlaying.Some? ==> m.isPlaying == p.isPlaying.value)
      && (p.isPlaying.None? ==> m.isPlaying == s.music.isPlaying)
      && (p.currentTrack.Some? ==> m.currentTrack == p.currentTrack.value)
      && (p.currentTrack.None? ==> m.currentTrack == s.music.currentTrack)
      && (p.volume.Some? ==> m.volume == p.volume.value)
      && (p.volume.None? ==> m.volume == s.music.volume)
      && (p.playlist.Some? ==> m.playlist == p.playlist.value)
      && (p.playlist.None? ==> m.playlist == s.music.playlist)
      && Apply(s, SetMusic(p), now) == s.(music := m)
    ensures p == NoMusicChanges ==> Apply(s, SetMusic(p), now) == s
  {
  }

  // ------------------------------------------------------ one-field setters

  /**
   * SET_DAILY_FOCUS: the focus reads back as the text, putting the old focus
   * back restores the state, and of two settings the later one wins.
   */
  lemma SetDailyFocusOnlyFocus(s: AppState, text: string, text2: string, now: nat)
    ensures var r := Apply(s, SetDailyFocus(text), now);
      && r.dailyFocus == text && r.(dailyFocus := s.dailyFocus) == s
      && Apply(r, SetDailyFocus(text2), now) == Apply(s, SetDailyFocus(text2), now)
  {
  }

  /** SET_NOTES: as SET_DAILY_FOCUS, for the notes. */
  lemma SetNotesOnlyNotes(s: AppState, text: string, text2: string, now: nat)
    ensures var r := Apply(s, SetNotes(text), now);
      && r.notes == text && r.(notes := s.notes) == s
      && Apply(r, SetNotes(text2), now) == Apply(s, SetNotes(text2), now)
  {
  }

  /** SET_BACKGROUND_THEME: as SET_DAILY_FOCUS, for the background theme. */
  lemma SetBackgroundThemeOnlyTheme(s: AppState, th: Theme, th2: Theme, now: nat)
    ensures var r := Apply(s, SetBackgroundTheme(th), now);
      && r.backgroundTheme == th && r.(backgroundTheme := s.backgroundTheme) == s
      && Apply(r, SetBackgroundTheme(th2), now) == Apply(s, SetBackgroundTheme(th2), now)
  {
  }

  /**
   * SET_TIMER_COLOR: the colour reads back, every other timer field and the
   * rest of the state are kept, and of two settings the later one wins.
   */
  lemma SetTimerColorOnlyColor(s: AppState, c: string, c2: string, now: nat)
    ensures var r := Apply(s, SetTimerColor(c), now);
      && r.currentTimer.customColor == Some(c)
      && r.currentTimer.(customColor := s.currentTimer.customColor) == s.currentTimer
      && r.(currentTimer := s.currentTimer) == s
      && Apply(r, SetTimerColor(c2), now) == Apply(s, SetTimerColor(c2), now)
  {
  }

  /** LOAD_FROM_STORAGE with only the notes present changes only the notes. */
  lemma LoadNotesOnly(s: AppState, text: string, now: nat)
    ensures Apply(s, LoadFromStorage(NoStateChanges.(notes := Some(text))), now) == s.(notes := text)
  {
  }

  /** Only the timer actions and a load that carries a timer touch the timer. */
  lemma TimerFrame(s: AppState, a: Action, now: nat)
    requires Admissible(a)
    requires !(a.StartTimer? || a.PauseTimer? || a.ResetTimer? || a.TickTimer? || a.SetTimerColor?)
    requires a.LoadFromStorage? ==> a.payload.currentTimer.None?
    ensures Apply(s, a, now).currentTimer == s.currentTimer
  {
  }
}
