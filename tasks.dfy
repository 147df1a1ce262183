/**
 * The profile page's local task list: tasks are prepended, toggled done and
 * undone, and deleted by position; the triage answer is fed in one task at
 * a time; the badge counts the open tasks. Beside it, the case-insensitive
 * sentiment filter of the comment table and the colour and pill mappings of
 * the page.
 */
module ProfileTasks {
  import opened Wrappers
  import Text
  import TriageRules
  import OutagePredictor

  /** One element of the stored `tasks` array. */
  datatype TaskItem = TaskItem(text: string, done: bool)

  /** `tasks.filter(t => !t.done).length`. */
  function OpenCount(ts: seq<TaskItem>): (n: nat)
    ensures n <= |ts|
  {
    if ts == [] then 0 else (if ts[0].done then 0 else 1) + OpenCount(ts[1..])
  }

  /** The list after flipping the `done` flag of the task at `i`. */
  function Toggled(ts: seq<TaskItem>, i: nat): (r: seq<TaskItem>)
    requires i < |ts|
    ensures |r| == |ts| && r[i].text == ts[i].text && r[i].done != ts[i].done
  {
    ts[i := ts[i].(done := !ts[i].done)]
  }

  /** `tasks.splice(i, 1)`: the task at `i` removed, nothing removed past the end. */
  function Spliced(ts: seq<TaskItem>, i: nat): (r: seq<TaskItem>)
    ensures i < |ts| ==> |r| == |ts| - 1 && multiset(r) + multiset{ts[i]} == multiset(ts)
    ensures i >= |ts| ==> r == ts
  {
    if i < |ts| then
      assert ts == ts[..i] + [ts[i]] + ts[i + 1..];
      ts[..i] + ts[i + 1..]
    else ts
  }

  /** One element of the triage answer's `tasks`, as the page reads it: the priority and title strings. */
  datatype TriageCard = TriageCard(priority: string, title: string)

  /** How the server writes one of its tasks into the answer. */
  function CardOf(t: TriageRules.Task): TriageCard
  {
    TriageCard(t.Urgency().Name(), t.Title())
  }

  /** The text `addTask` receives for one triage card. */
  function FeedEntry(t: TriageCard): string
  {
    t.priority + ": " + t.title
  }

  /** What prepending each triage task in turn puts in front of the list: open entries, the last task first. */
  function FeedEntries(triage: seq<TriageCard>): (r: seq<TaskItem>)
    ensures |r| == |triage|
    ensures forall k :: 0 <= k < |triage| ==> r[|triage| - 1 - k] == TaskItem(FeedEntry(triage[k]), false)
  {
    seq(|triage|, j requires 0 <= j < |triage| => TaskItem(FeedEntry(triage[|triage| - 1 - j]), false))
  }

  /** The task list and the operations of its form and buttons. */
  class TaskList {
    var tasks: seq<TaskItem>

    /** The list parsed from storage, given as it was stored. */
    constructor (stored: seq<TaskItem>)
      ensures tasks == stored
    {
      tasks := stored;
    }

    /** `addTask`: an open task in front of the others. */
    method AddTask(text: string)
      modifies this
      ensures tasks == [TaskItem(text, false)] + old(tasks)
    {
      tasks := [TaskItem(text, false)] + tasks;
    }

    /**
     * The form's submit handler, with the input's value before and after:
     * blank input changes nothing; otherwise the trimmed text is added and
     * the input cleared.
     */
    method Submit(input: string) returns (inputAfter: string)
      modifies this
      ensures Text.Trim(input) == [] ==> tasks == old(tasks) && inputAfter == input
      ensures Text.Trim(input) != [] ==> tasks == [TaskItem(Text.Trim(input), false)] + old(tasks) && inputAfter == ""
    {
      var v := Text.Trim(input);
      if v == [] {
        return input;
      }
      AddTask(v);
      inputAfter := "";
    }

    /** The "Done"/"Undone" button of the task at `i`. */
    method Toggle(i: nat)
      requires i < |tasks|
      modifies this
      ensures tasks == Toggled(old(tasks), i)
    {
      tasks := tasks[i := tasks[i].(done := !tasks[i].done)];
    }

    /** The "Delete" button of the task at `i`. */
    method Delete(i: nat)
      modifies this
      ensures tasks == Spliced(old(tasks), i)
    {
      if i < |tasks| {
        tasks := tasks[..i] + tasks[i + 1..];
      }
    }

    /** The `forEach` over the triage answer that calls `addTask` with "<priority>: <title>" for each task. */
    method FeedTriage(triage: seq<TriageCard>)
      modifies this
      ensures tasks == FeedEntries(triage) + old(tasks)
    {
      var k := 0;
      while k < |triage|
        invariant 0 <= k <= |triage|
        invariant tasks == FeedEntries(triage[..k]) + old(tasks)
      {
        AddTask(FeedEntry(triage[k]));
        FeedEntriesSnoc(triage, k);
        k := k + 1;
      }
      assert triage[..k] == triage;
    }
  }

  /** Counting splits over concatenation. */
  lemma {:induction false} OpenCountAppend(a: seq<TaskItem>, b: seq<TaskItem>)
    ensures OpenCount(a + b) == OpenCount(a) + OpenCount(b)
  {
    if a != [] {
      assert (a + b)[1..] == a[1..] + b;
      OpenCountAppend(a[1..], b);
    } else {
      assert a + b == b;
    }
  }

  /** A list split around position `i`. */
  lemma AroundIndex(ts: seq<TaskItem>, i: nat)
    requires i < |ts|
    ensures ts == ts[..i] + [ts[i]] + ts[i + 1..]
  {
  }

  /** Adding a task opens one more task. */
  lemma AddOpensOne(text: string, ts: seq<TaskItem>)
    ensures OpenCount([TaskItem(text, false)] + ts) == OpenCount(ts) + 1
  {
    assert ([TaskItem(text, false)] + ts)[1..] == ts;
  }

  /**
   * Toggling changes only the flag at `i`: the length and every other task
   * stay, and the badge moves by one in the right direction.
   */
  lemma ToggleEffect(ts: seq<TaskItem>, i: nat)
    requires i < |ts|
    ensures |Toggled(ts, i)| == |ts|
    ensures Toggled(ts, i)[i].text == ts[i].text && Toggled(ts, i)[i].done == !ts[i].done
    ensures forall j :: 0 <= j < |ts| && j != i ==> Toggled(ts, i)[j] == ts[j]
    ensures OpenCount(Toggled(ts, i)) == if ts[i].done then OpenCount(ts) + 1 else OpenCount(ts) - 1
  {
    var t := Toggled(ts, i);
    AroundIndex(ts, i);
    AroundIndex(t, i);
    assert t[..i] == ts[..i] && t[i + 1..] == ts[i + 1..];
    OpenCountAppend(ts[..i] + [ts[i]], ts[i + 1..]);
    OpenCountAppend(ts[..i], [ts[i]]);
    OpenCountAppend(t[..i] + [t[i]], t[i + 1..]);
    OpenCountAppend(t[..i], [t[i]]);
  }

  /** Toggling twice restores the list. */
  lemma ToggleTwice(ts: seq<TaskItem>, i: nat)
    requires i < |ts|
    ensures Toggled(Toggled(ts, i), i) == ts
  {
  }

  /**
   * Deleting a valid position removes exactly that task: one fewer task,
   * the others in their order, and one fewer open task iff it was open.
   */
  lemma DeleteEffect(ts: seq<TaskItem>, i: nat)
    requires i < |ts|
    ensures |Spliced(ts, i)| == |ts| - 1
    ensures forall j :: 0 <= j < i ==> Spliced(ts, i)[j] == ts[j]
    ensures forall j :: i <= j < |ts| - 1 ==> Spliced(ts, i)[j] == ts[j + 1]
    ensures OpenCount(Spliced(ts, i)) == if ts[i].done then OpenCount(ts) else OpenCount(ts) - 1
  {
    AroundIndex(ts, i);
    OpenCountAppend(ts[..i] + [ts[i]], ts[i + 1..]);
    OpenCountAppend(ts[..i], [ts[i]]);
    OpenCountAppend(ts[..i], ts[i + 1..]);
  }

  /** A position past the end deletes nothing. */
  lemma DeletePastEnd(ts: seq<TaskItem>, i: nat)
    requires i >= |ts|
    ensures Spliced(ts, i) == ts
  {
  }

  /** Feeding one more task puts its entry in front of the entries of the tasks before it. */
  lemma FeedEntriesSnoc(triage: seq<TriageCard>, k: nat)
    requires k < |triage|
    ensures FeedEntries(triage[..k + 1]) == [TaskItem(FeedEntry(triage[k]), false)] + FeedEntries(triage[..k])
  {
    var a := FeedEntries(triage[..k + 1]);
    var b := [TaskItem(FeedEntry(triage[k]), false)] + FeedEntries(triage[..k]);
    forall j | 0 <= j <= k
      ensures a[j] == b[j]
    {
      assert triage[..k + 1][k - j] == triage[k - j];
      if j > 0 {
        assert triage[..k][k - j] == triage[k - j];
      }
    }
  }

  /** A list of open tasks counts every task as open. */
  lemma {:induction false} AllOpenCount(ts: seq<TaskItem>)
    requires forall i :: 0 <= i < |ts| ==> !ts[i].done
    ensures OpenCount(ts) == |ts|
  {
    if ts != [] {
      AllOpenCount(ts[1..]);
    }
  }

  /** Every fed entry is open. */
  lemma FeedEntriesOpen(triage: seq<TriageCard>)
    ensures OpenCount(FeedEntries(triage)) == |triage|
  {
    AllOpenCount(FeedEntries(triage));
  }

  /** The badge after feeding the triage answer counts every fed entry plus the tasks open before. */
  lemma FeedOpensAll(triage: seq<TriageCard>, ts: seq<TaskItem>)
    ensures OpenCount(FeedEntries(triage) + ts) == |triage| + OpenCount(ts)
  {
    FeedEntriesOpen(triage);
    OpenCountAppend(FeedEntries(triage), ts);
  }

  // ---------------------------------------------------------------------------
  // The comment table's sentiment filter
  // ---------------------------------------------------------------------------

  /** One row of the social-media feedback; only the sentiment matters to the filter. */
  datatype SocialComment = SocialComment(comment: string, sentiment: Option<string>)

  /** One row's test under a filter value other than "all"; a row without a sentiment makes `toLowerCase` throw. */
  function RowMatches(x: SocialComment, val: string): Option<bool>
  {
    match x.sentiment
    case Some(s) => Some(Text.Lower(s) == Text.Lower(val))
    case None => None
  }

  /**
   * The rows the table shows for a filter value: every row for "all";
   * otherwise the matching rows in order, or nothing (the handler throws)
   * when a row lacks a sentiment.
   */
  function Filter(rows: seq<SocialComment>, val: string): (r: Option<seq<SocialComment>>)
    ensures val == "all" ==> r == Some(rows)
    ensures val != "all" ==> (r.None? <==> exists i :: 0 <= i < |rows| && rows[i].sentiment.None?)
  {
    if val == "all" then Some(rows) else FilterRows(rows, val)
  }

  function FilterRows(rows: seq<SocialComment>, val: string): (r: Option<seq<SocialComment>>)
    ensures r.None? <==> exists i :: 0 <= i < |rows| && rows[i].sentiment.None?
  {
    if rows == [] then Some([])
    else
      assert forall i :: 1 <= i < |rows| ==> rows[i] == rows[1..][i - 1];
      var here := RowMatches(rows[0], val);
      var rest := FilterRows(rows[1..], val);
      if here.None? || rest.None? then None
      else Some((if here.value then [rows[0]] else []) + rest.value)
  }

  /** The filter "all" shows every row. */
  lemma FilterAll(rows: seq<SocialComment>)
    ensures Filter(rows, "all") == Some(rows)
  {
  }

  /** Filtering a concatenation filters each part and keeps their order. */
  lemma {:induction false} FilterRowsAppend(a: seq<SocialComment>, b: seq<SocialComment>, val: string)
    requires FilterRows(a, val).Some? && FilterRows(b, val).Some?
    ensures FilterRows(a + b, val) == Some(FilterRows(a, val).value + FilterRows(b, val).value)
  {
    if a == [] {
      assert a + b == b;
      assert FilterRows(a, val) == Some([]);
      assert [] + FilterRows(b, val).value == FilterRows(b, val).value;
    } else {
      assert (a + b)[1..] == a[1..] + b;
      assert (a + b)[0] == a[0];
      var fa, fb := FilterRows(a[1..], val).value, FilterRows(b, val).value;
      FilterRowsAppend(a[1..], b, val);
      var head := if RowMatches(a[0], val).value then [a[0]] else [];
      assert FilterRows(a, val).value == head + fa;
      assert FilterRows(a + b, val).value == head + (fa + fb);
      assert head + (fa + fb) == (head + fa) + fb;
    }
  }

  /**
   * Under any other value, when every row has a sentiment, a row is shown
   * exactly when its sentiment equals the value ignoring case: every shown
   * row matches, and every matching row is shown.
   */
  lemma {:induction false} FilterRowsExact(rows: seq<SocialComment>, val: string)
    requires forall i :: 0 <= i < |rows| ==> rows[i].sentiment.Some?
    ensures FilterRows(rows, val).Some?
    ensures forall x :: x in FilterRows(rows, val).value ==>
      x in rows && x.sentiment.Some? && Text.Lower(x.sentiment.value) == Text.Lower(val)
    ensures forall i :: 0 <= i < |rows| && Text.Lower(rows[i].sentiment.value) == Text.Lower(val) ==>
      rows[i] in FilterRows(rows, val).value
  {
    if rows != [] {
      assert forall i :: 1 <= i < |rows| ==> rows[i] == rows[1..][i - 1];
      FilterRowsExact(rows[1..], val);
      forall i | 0 <= i < |rows| && Text.Lower(rows[i].sentiment.value) == Text.Lower(val)
        ensures rows[i] in FilterRows(rows, val).value
      {
        if i > 0 {
          assert rows[1..][i - 1] == rows[i];
        }
      }
    }
  }

  // ---------------------------------------------------------------------------
  // Colours and pills
  // ---------------------------------------------------------------------------

  /** The pill styles of the page. */
  datatype Pill = Bad | Warn | Ok {
    function Class(): string
    {
      match this
      case Bad => "bad"
      case Warn => "warn"
      case Ok => "ok"
    }
  }

  /** The pill of a triage task's priority. */
  function PriorityPill(priority: string): (p: Pill)
    ensures p == Bad <==> priority == "P0"
    ensures p == Warn <==> priority == "P1"
    ensures p == Ok <==> priority != "P0" && priority != "P1"
  {
    if priority == "P0" then Bad else if priority == "P1" then Warn else Ok
  }

  /** The pill of an outage prediction's label. */
  function ForecastPill(level: string): (p: Pill)
    ensures p == Bad <==> level == "high"
    ensures p == Warn <==> level == "medium"
    ensures p == Ok <==> level != "high" && level != "medium"
  {
    if level == "high" then Bad else if level == "medium" then Warn else Ok
  }

  /** The priority pill of a server task follows its urgency. */
  lemma ServerPriorityPill(t: TriageRules.Task)
    ensures PriorityPill(CardOf(t).priority) == Bad <==> t.Urgency() == TriageRules.P0
    ensures PriorityPill(CardOf(t).priority) == Warn <==> t.Urgency() == TriageRules.P1
    ensures PriorityPill(CardOf(t).priority) == Ok <==> t.Urgency() == TriageRules.P2
  {
  }

  /** The pill of a predicted outage is bad from 65%, a warning from 40% and fine below. */
  lemma PredictionPill(region: string)
    ensures var r := OutagePredictor.PredictOutage(region);
      (ForecastPill(r.level) == Bad <==> r.probability >= 65)
      && (ForecastPill(r.level) == Warn <==> 40 <= r.probability < 65)
      && (ForecastPill(r.level) == Ok <==> r.probability < 40)
  {
    OutagePredictor.PredictOutageBands(region);
  }

  /** The circle colour of an outage point: rose above 0.6, amber above 0.4, cerulean otherwise. */
  function OutageColour(p: real): (c: string)
    ensures c == "#D90368" <==> p > 0.6
    ensures c == "#F59E0B" <==> 0.4 < p <= 0.6
    ensures c == "#1C6E8C" <==> p <= 0.4
  {
    if p > 0.6 then "#D90368" else if p > 0.4 then "#F59E0B" else "#1C6E8C"
  }

  /** The pill of a comment row: bad for "Negative", no style for "Positive", a warning otherwise, a missing sentiment included. */
  function SentimentPill(sentiment: Option<string>): (c: string)
    ensures c == "bad" <==> sentiment == Some("Negative")
    ensures c == "" <==> sentiment == Some("Positive")
    ensures c == "warn" <==> sentiment != Some("Negative") && sentiment != Some("Positive")
  {
    if sentiment == Some("Negative") then Bad.Class()
    else if sentiment == Some("Positive") then ""
    else Warn.Class()
  }
}
