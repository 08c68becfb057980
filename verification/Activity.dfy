/** Harness activity, folded from a harness's reports (agentctl/src/sessions/activity.rs). */
module Activity {
  import opened Wrappers

  datatype Phase = Unknown | Working | WaitingForInput

  datatype ActivityEvent = SessionStart | TurnStarted | TurnCompleted | WaitingReported

  const U64_MAX: nat := 0xFFFF_FFFF_FFFF_FFFF

  datatype Activity = Activity(phase: Phase, turns: nat, lastEventAt: Option<int>, phaseSince: Option<int>)

  const QUIET := Activity(Unknown, 0, None, None)

  /** One report, and when it came. */
  datatype Entry = Entry(event: ActivityEvent, at: int)

  function PhaseAfter(event: ActivityEvent): Phase {
    match event
    case SessionStart => Working
    case TurnStarted => Working
    case TurnCompleted => WaitingForInput
    case WaitingReported => WaitingForInput
  }

  /** `Activity::folded`: a start that comes late changes nothing. */
  function Folded(activity: Activity, entry: Entry): Activity {
    if entry.event == SessionStart && activity.phase != Unknown then activity
    else
      var phase := PhaseAfter(entry.event);
      var counted := entry.event == TurnCompleted && activity.turns < U64_MAX;
      var turns := if counted then activity.turns + 1 else activity.turns;
      var since := if phase != activity.phase || activity.phaseSince.None? then Some(entry.at) else activity.phaseSince;
      Activity(phase, turns, Some(entry.at), since)
  }

  function FoldAll(entries: seq<Entry>): Activity {
    if entries == [] then QUIET else Folded(FoldAll(entries[..|entries| - 1]), entries[|entries| - 1])
  }

  lemma FoldOneMore(entries: seq<Entry>, entry: Entry)
    ensures FoldAll(entries + [entry]) == Folded(FoldAll(entries), entry)
  {
    assert (entries + [entry])[..|entries|] == entries;
  }

  function Completions(entries: seq<Entry>): nat {
    if entries == [] then 0
    else Completions(entries[..|entries| - 1]) + if entries[|entries| - 1].event == TurnCompleted then 1 else 0
  }

  /** A start report after something else was heard. */
  predicate Late(entries: seq<Entry>, i: nat)
    requires i < |entries|
  {
    i > 0 && entries[i].event == SessionStart
  }

  /** The fold's phase and last time are those of entry `i`, and only late starts came after it. */
  predicate LastAt(entries: seq<Entry>, i: nat)
    requires i < |entries|
  {
    && !Late(entries, i) && FoldAll(entries).lastEventAt == Some(entries[i].at)
    && FoldAll(entries).phase == PhaseAfter(entries[i].event)
    && (forall j :: i < j < |entries| ==> Late(entries, j))
  }

  /** The fold's phase began with entry `i`, and every entry that counted since has the same phase. */
  predicate SinceAt(entries: seq<Entry>, i: nat)
    requires i < |entries|
  {
    && !Late(entries, i) && FoldAll(entries).phaseSince == Some(entries[i].at)
    && (forall j :: i <= j < |entries| && !Late(entries, j) ==> PhaseAfter(entries[j].event) == FoldAll(entries).phase)
    && (i > 0 ==> FoldAll(entries[..i]).phase != FoldAll(entries).phase)
  }

  /**
    What the fold remembers: how many turns were completed, saturating; the phase of the last entry
    that was not a late start; and since when, with no other phase between, it has been so.
  */
  lemma {:induction false} FoldRemembers(entries: seq<Entry>)
    ensures FoldAll(entries).turns == if Completions(entries) < U64_MAX then Completions(entries) else U64_MAX
    ensures entries == [] <==> FoldAll(entries).phase == Unknown
    ensures entries == [] <==> FoldAll(entries).phaseSince.None?
    ensures entries != [] ==>
      exists i :: 0 <= i < |entries| && LastAt(entries, i)
    ensures entries != [] ==>
      exists i :: 0 <= i < |entries| && SinceAt(entries, i)
  {
    if entries != [] {
      var n := |entries| - 1;
      var before, last := entries[..n], entries[n];
      FoldRemembers(before);
      assert entries == before + [last];
      if Late(entries, n) {
        var i :| 0 <= i < n && LastAt(before, i);
        forall j | i < j < |entries|
          ensures Late(entries, j)
        {
          assert j < n ==> Late(before, j);
        }
        assert LastAt(entries, i);
        var s :| 0 <= s < n && SinceAt(before, s);
        SinceCarriesOver(before, last, s);
      } else {
        assert LastAt(entries, n);
        if n > 0 && PhaseAfter(last.event) == FoldAll(before).phase {
          var s :| 0 <= s < n && SinceAt(before, s);
          SinceCarriesOver(before, last, s);
        } else {
          assert SinceAt(entries, n);
        }
      }
    }
  }

  lemma SinceCarriesOver(before: seq<Entry>, last: Entry, i: nat)
    requires i < |before| && SinceAt(before, i)
    requires FoldAll(before).phase != Unknown && FoldAll(before).phaseSince.Some?
    requires last.event == SessionStart || PhaseAfter(last.event) == FoldAll(before).phase
    ensures SinceAt(before + [last], i)
  {
    var entries := before + [last];
    FoldOneMore(before, last);
    assert entries[..i] == before[..i];
    forall j | i <= j < |entries| && !Late(entries, j)
      ensures PhaseAfter(entries[j].event) == FoldAll(entries).phase
    {
      if j < |before| { assert !Late(before, j); }
    }
  }
}
