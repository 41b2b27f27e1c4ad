/**
 * The notes section: word and character counts, the clear and download
 * handlers, the "last saved" caption and the auto-save indicator.
 */
module Notes {
  import opened Optional
  import opened Text
  import opened Seqs
  import opened State
  import opened Reducer
  import opened Persistence
  import opened Provider

  /** Drops a leading run of white space. */
  function DropSpaces(s: string): (r: string)
    ensures |r| <= |s| && r == s[|s| - |r|..]
    ensures IsBlank(s[..|s| - |r|])
    ensures r == [] || !IsSpace(r[0])
  {
    if s != [] && IsSpace(s[0]) then
      var r := DropSpaces(s[1..]);
      assert s[1..][..|s| - 1 - |r|] == s[1..|s| - |r|];
      r
    else s
  }

  /**
   * `s.split(/\s+/)` continuing a piece `cur`: every maximal run of white
   * space separates two pieces, so leading or trailing white space yields an
   * empty first or last piece.
   */
  function SplitFrom(s: string, cur: string): (r: seq<string>)
    ensures |r| >= 1
    decreases |s|
  {
    if s == [] then [cur]
    else if IsSpace(s[0]) then [cur] + SplitFrom(DropSpaces(s[1..]), "")
    else SplitFrom(s[1..], cur + [s[0]])
  }

  function SplitWs(s: string): seq<string> {
    SplitFrom(s, "")
  }

  predicate IsWord(w: string) {
    |w| > 0
  }

  /** `notes.trim().split(/\s+/).filter(word => word.length > 0).length` */
  function WordCount(notes: string): nat {
    |Filter(SplitWs(Trim(notes)), IsWord)|
  }

  /** `notes.length`, which counts UTF-16 code units. */
  function CharCount(notes: string): nat {
    Utf16Length(notes)
  }

  /** A character outside the Basic Multilingual Plane counts twice. */
  lemma CharCountExample()
    ensures CharCount("ok") == 2
    ensures CharCount("ok \U{1F600}") == 5
  {
    assert "ok \U{1F600}"[1..] == "k \U{1F600}";
    assert "k \U{1F600}"[1..] == " \U{1F600}";
    assert " \U{1F600}"[1..] == "\U{1F600}";
  }

  /**
   * The reference count: the positions where a run of non-space characters
   * begins, `afterSpace` telling whether the text before `s` ended in white
   * space (or was empty).
   */
  function Runs(s: string, afterSpace: bool): (n: nat)
    ensures n <= |s|
  {
    if s == [] then 0
    else (if afterSpace && !IsSpace(s[0]) then 1 else 0) + Runs(s[1..], IsSpace(s[0]))
  }

  /** Whether the text `a`, coming after a text that ended as `afterSpace` says, ends in white space. */
  function EndsInSpace(a: string, afterSpace: bool): bool {
    if a == [] then afterSpace else IsSpace(a[|a| - 1])
  }

  lemma {:induction false} RunsConcat(a: string, b: string, afterSpace: bool)
    ensures Runs(a + b, afterSpace) == Runs(a, afterSpace) + Runs(b, EndsInSpace(a, afterSpace))
  {
    if a != [] {
      assert (a + b)[1..] == a[1..] + b;
      RunsConcat(a[1..], b, IsSpace(a[0]));
      assert a[1..] != [] ==> a[1..][|a[1..]| - 1] == a[|a| - 1];
    } else {
      assert a + b == b;
    }
  }

  lemma {:induction false} RunsBlank(s: string, afterSpace: bool)
    requires IsBlank(s)
    ensures Runs(s, afterSpace) == 0
  {
    if s != [] {
      RunsBlank(s[1..], IsSpace(s[0]));
    }
  }

  /** A text has no run of non-space characters exactly when it is blank. */
  lemma {:induction false} NoRunsIffBlank(s: string)
    ensures Runs(s, true) == 0 <==> IsBlank(s)
  {
    if s != [] {
      NoRunsIffBlank(s[1..]);
      if IsSpace(s[0]) {
        assert IsBlank(s) <==> IsBlank(s[1..]);
      }
    }
  }

  /** Splitting and dropping the empty pieces leaves one piece per run. */
  lemma {:induction false} SplitCountsRuns(s: string, cur: string)
    ensures |Filter(SplitFrom(s, cur), IsWord)| == if cur == [] then Runs(s, true) else 1 + Runs(s, false)
    decreases |s|
  {
    if s == [] {
    } else if IsSpace(s[0]) {
      var rest := DropSpaces(s[1..]);
      FilterConcat([cur], SplitFrom(rest, ""), IsWord);
      SplitCountsRuns(rest, "");
      var k := |s| - 1 - |rest|;
      assert s[1..] == s[1..][..k] + rest;
      RunsConcat(s[1..][..k], rest, true);
      RunsBlank(s[1..][..k], true);
      assert EndsInSpace(s[1..][..k], true);
    } else {
      SplitCountsRuns(s[1..], cur + [s[0]]);
    }
  }

  /** Dropping leading white space does not change the runs of a text. */
  lemma TrimStartKeepsRuns(s: string)
    ensures Runs(TrimStart(s), true) == Runs(s, true)
  {
    var t := TrimStart(s);
    var lead := s[..|s| - |t|];
    assert s == lead + t;
    RunsConcat(lead, t, true);
    RunsBlank(lead, true);
    assert EndsInSpace(lead, true);
  }

  /** Dropping trailing white space does not change the runs of a text. */
  lemma TrimEndKeepsRuns(t: string)
    ensures Runs(TrimEnd(t), true) == Runs(t, true)
  {
    var r := TrimEnd(t);
    var trail := t[|r|..];
    assert t == r + trail;
    RunsConcat(r, trail, true);
    RunsBlank(trail, EndsInSpace(r, true));
  }

  /** Trimming does not change the runs of a text. */
  lemma TrimKeepsRuns(s: string)
    ensures Runs(Trim(s), true) == Runs(s, true)
  {
    TrimStartKeepsRuns(s);
    TrimEndKeepsRuns(TrimStart(s));
  }

  /** The word count is the number of runs of non-space characters in the notes. */
  lemma WordCountIsRuns(notes: string)
    ensures WordCount(notes) == Runs(notes, true)
  {
    SplitCountsRuns(Trim(notes), "");
    TrimKeepsRuns(notes);
  }

  /** No more words than characters, and no words exactly when the notes are blank. */
  lemma WordCountBounds(notes: string)
    ensures WordCount(notes) <= CharCount(notes)
    ensures WordCount(notes) == 0 <==> IsBlank(notes)
  {
    WordCountIsRuns(notes);
    NoRunsIffBlank(notes);
  }

  /** The clear and download buttons are enabled while `notes.trim()` is non-empty. */
  predicate HasContent(notes: string) {
    Trim(notes) != []
  }

  /** A file offered for download. */
  datatype Download = Download(name: string, contents: string)

  /** `iso.split('T')[0]`: the date part of an ISO timestamp. */
  function DatePart(iso: string): (r: string)
    ensures r == iso[..IndexOf(iso, 'T')] && 'T' !in r
  {
    iso[..IndexOf(iso, 'T')]
  }

  /** handleDownload: nothing for blank notes (an alert), else the notes verbatim in a dated text file. */
  function DownloadFile(notes: string, iso: string): (r: Option<Download>)
    ensures r.None? <==> IsBlank(notes)
    ensures r.Some? ==> r.value.contents == notes
  {
    if !HasContent(notes) then None
    else Some(Download("productivity-notes-" + DatePart(iso) + ".txt", notes))
  }

  /** The file is named after the date of the ISO timestamp. */
  lemma DownloadNamedByDate(notes: string, date: string, time: string)
    requires !IsBlank(notes) && 'T' !in date
    ensures DownloadFile(notes, date + "T" + time) == Some(Download("productivity-notes-" + date + ".txt", notes))
  {
    var iso := date + "T" + time;
    assert IndexOf(iso, 'T') == |date| by {
      assert forall i :: 0 <= i < |date| ==> iso[i] == date[i];
      assert iso[|date|] == 'T';
    }
    assert iso[..|date|] == date;
  }

  /** The notes as they were last written to storage, empty when nothing is stored. */
  function StoredNotes(storage: Option<Saved>): string {
    if storage.Some? then storage.value.notes else ""
  }

  /** The auto-save check: the notes differ from the stored copy. */
  predicate NeedsSaving(notes: string, storage: Option<Saved>) {
    notes != StoredNotes(storage)
  }

  /**
   * The provider writes every state change to storage before the auto-save
   * check fires, so the check never sees unsaved notes and the "saving"
   * indicator never comes on.
   */
  lemma SyncedNeverNeedsSaving(s: AppState, storage: Option<Saved>)
    requires storage == Some(Save(s))
    ensures !NeedsSaving(s.notes, storage)
  {
  }

  /** formatLastSaved: never, just now, minutes ago below an hour, else the saved clock time. */
  function LastSavedText(lastSaved: Option<int>, now: int, clockText: string): (r: string)
  {
    match lastSaved
    case None => "Never saved"
    case Some(t) =>
      var minutes := (now - t) / 60000;
      if minutes < 1 then "Saved just now"
      else if minutes < 60 then "Saved " + IntToString(minutes) + "m ago"
      else "Saved at " + clockText
  }

  /** The caption's four bands, by elapsed milliseconds. */
  lemma LastSavedBands(t: int, now: int, clockText: string)
    ensures LastSavedText(None, now, clockText) == "Never saved"
    ensures now - t < 60000 ==> LastSavedText(Some(t), now, clockText) == "Saved just now"
    ensures 60000 <= now - t < 3600000 ==>
      LastSavedText(Some(t), now, clockText) == "Saved " + Decimal((now - t) / 60000) + "m ago"
      && 1 <= (now - t) / 60000 < 60
    ensures now - t >= 3600000 ==> LastSavedText(Some(t), now, clockText) == "Saved at " + clockText
  {
  }

  /** A caption of minutes ago reads back as the elapsed whole minutes. */
  lemma LastSavedMinutesReadBack(t: int, now: int, clockText: string)
    requires 60000 <= now - t < 3600000
    ensures var text := LastSavedText(Some(t), now, clockText);
      var digits := text[6..|text| - 5];
      AllDigits(digits) && ParseDecimal(digits) == (now - t) / 60000
  {
    var m := (now - t) / 60000;
    var text := "Saved " + Decimal(m) + "m ago";
    assert text[6..|text| - 5] == Decimal(m);
    ParseDecimalOfDecimal(m);
  }

  /** The notes section with its caption and indicator state. */
  class Editor {
    const store: Store
    /** The time of the last save, in milliseconds. */
    var lastSaved: Option<int>
    var isSaving: bool

    constructor (store: Store)
      ensures this.store == store && lastSaved == None && !isSaving
    {
      this.store := store;
      lastSaved, isSaving := None, false;
    }

    /** handleNotesChange */
    method Change(value: string, now: nat)
      requires store.Synced()
      modifies store
      ensures store.state == Apply(old(store.state), SetNotes(value), now)
      ensures store.Synced()
    {
      store.Dispatch(SetNotes(value), now);
    }

    /** handleClearAll; `confirmed` is the answer to the confirmation dialog, asked only for notes with content. */
    method ClearAll(confirmed: bool, now: nat) returns (cleared: bool)
      requires store.Synced()
      modifies this`lastSaved, store
      ensures cleared <==> !IsBlank(old(store.state.notes)) && confirmed
      ensures cleared ==> store.state == Apply(old(store.state), SetNotes(""), now) && lastSaved == Some(now)
      ensures !cleared ==> store.state == old(store.state) && lastSaved == old(lastSaved)
      ensures store.Synced()
    {
      cleared := HasContent(store.state.notes) && confirmed;
      if cleared {
        store.Dispatch(SetNotes(""), now);
        lastSaved := Some(now);
      }
    }

    /** The auto-save timeout, one second after the notes last changed. */
    method AutoSaveFired()
      modifies this`isSaving
      ensures isSaving == (old(isSaving) || NeedsSaving(store.state.notes, store.storage))
    {
      if NeedsSaving(store.state.notes, store.storage) {
        isSaving := true;
      }
    }

    /** The inner timeout, half a second after the indicator came on. */
    method SavingFinished(now: int)
      modifies this`isSaving, this`lastSaved
      ensures !isSaving && lastSaved == Some(now)
    {
      isSaving, lastSaved := false, Some(now);
    }

    /** With the store synced, the auto-save check leaves the indicator as it was. */
    method AutoSaveWhenSynced()
      requires store.Synced()
      modifies this`isSaving
      ensures isSaving == old(isSaving)
    {
      SyncedNeverNeedsSaving(store.state, store.storage);
      AutoSaveFired();
    }
  }
}
