/**
 * `extract_final_result` of src/app.py: finds the agent's final answer in a
 * (cleaned) execution-history document.
 *
 * The Python function returns a value or raises. A returned Python `None` is
 * `JNull` here, so "not found", `"final_result": null` and a `done` object
 * without `text` all return `JNull`, exactly as they do in Python. The places
 * where the code is not guarded against an ill-typed document are explicit
 * `Crash` outcomes, never "not found".
 */
module ResultExtraction {
  import opened Wrappers
  import opened Json

  /** The unguarded operations of the function, each of which raises on some document. */
  datatype CrashSite =
    | HistoryNotReversible  // `reversed(...)` on None, a bool or a number: TypeError
    | ModelOutputNotDict    // `.get("action", [])` on a `model_output` that is not a dict: AttributeError
    | ActionsNotIterable    // `for action in ...` over None, a bool or a number: TypeError
    | ActionNotDict         // `action.get("done")` on an action that is not a dict: AttributeError

  /** What a call of the function does: return a value, or raise at one of the sites. */
  datatype Outcome = Returned(value: Json) | Crash(site: CrashSite)

  /** What examining one action or one history entry does: move on, or end the call. */
  datatype Step = Next | Stop(outcome: Outcome)

  /** Python iterates a string as its one-character strings. */
  function Chars(s: string): (r: seq<Json>)
    ensures |r| == |s|
    ensures forall i :: 0 <= i < |s| ==> r[i] == JStr([s[i]])
  {
    seq(|s|, i requires 0 <= i < |s| => JStr([s[i]]))
  }

  /**
   * The sequence the inner loop iterates for one dict entry:
   * `entry.get("model_output", {}).get("action", [])`, with a single action
   * object wrapped into a one-element list.
   */
  function ActionsOf(entry: map<string, Json>): (r: Result<seq<Json>, CrashSite>)
    ensures "model_output" !in entry ==> r == Success([])
    ensures r == Failure(ModelOutputNotDict) <==> "model_output" in entry && !entry["model_output"].JObj?
    ensures ("model_output" in entry && entry["model_output"].JObj? &&
             "action" !in entry["model_output"].fields) ==> r == Success([])
    ensures r == Failure(ActionsNotIterable) <==>
              "model_output" in entry && entry["model_output"].JObj? &&
              "action" in entry["model_output"].fields &&
              (var action := entry["model_output"].fields["action"];
               action.JNull? || action.JBool? || action.JInt?)
  {
    var modelOutput := Get(entry, "model_output", JObj(map[]));
    if !modelOutput.JObj? then Failure(ModelOutputNotDict)
    else
      var actions := Get(modelOutput.fields, "action", JArr([]));
      match actions
      case JObj(_) => Success([actions])
      case JArr(items) => Success(items)
      case JStr(s) => Success(Chars(s))
      case _ => Failure(ActionsNotIterable)
  }

  /** One turn of the inner loop: a dict or string `done` ends the call, anything else moves on. */
  function ActionStep(action: Json): (r: Step)
    ensures !action.JObj? ==> r == Stop(Crash(ActionNotDict))
    ensures action.JObj? && !(Get(action.fields, "done", JNull).JObj? || Get(action.fields, "done", JNull).JStr?) ==>
              r == Next
  {
    match action
    case JObj(fields) =>
      (match Get(fields, "done", JNull)
       case JObj(done) => Stop(Returned(Get(done, "text", JNull)))
       case JStr(s) => Stop(Returned(JStr(s)))
       case _ => Next)
    case _ => Stop(Crash(ActionNotDict))
  }

  /** The inner loop: actions are examined in list order and the first that stops wins. */
  function ScanActions(actions: seq<Json>): (r: Step)
    ensures r == Next <==> forall j :: 0 <= j < |actions| ==> ActionStep(actions[j]) == Next
    ensures r.Stop? ==> exists k :: 0 <= k < |actions| && r == ActionStep(actions[k]) &&
                                   forall j :: 0 <= j < k ==> ActionStep(actions[j]) == Next
    decreases |actions|
  {
    if actions == [] then Next
    else if ActionStep(actions[0]).Stop? then ActionStep(actions[0])
    else
      var rest := ScanActions(actions[1..]);
      assert forall j :: 1 <= j < |actions| ==> actions[j] == actions[1..][j - 1];
      rest
  }

  /** One turn of the outer loop: entries that are not dicts are skipped. */
  function EntryStep(entry: Json): (r: Step)
    ensures !entry.JObj? ==> r == Next
  {
    match entry
    case JObj(fields) =>
      (match ActionsOf(fields)
       case Failure(site) => Stop(Crash(site))
       case Success(actions) => ScanActions(actions))
    case _ => Next
  }

  /**
   * The outer loop over `reversed(history)`: the newest (last) entry is
   * examined first, and the first entry that stops decides the outcome.
   */
  function ScanHistory(entries: seq<Json>): (r: Outcome)
    ensures (forall j :: 0 <= j < |entries| ==> EntryStep(entries[j]) == Next) ==> r == Returned(JNull)
    ensures forall k :: 0 <= k < |entries| && EntryStep(entries[k]).Stop? &&
                        (forall j :: k < j < |entries| ==> EntryStep(entries[j]) == Next) ==>
                          r == EntryStep(entries[k]).outcome
    decreases |entries|
  {
    if entries == [] then Returned(JNull)
    else
      var last := |entries| - 1;
      var step := EntryStep(entries[last]);
      if step.Stop? then step.outcome
      else
        var older := entries[..last];
        assert forall j :: 0 <= j < last ==> older[j] == entries[j];
        ScanHistory(older)
  }

  /** The elements `reversed(history)` yields, oldest first, or None when `reversed` raises. */
  function HistoryEntries(history: Json): (r: Option<seq<Json>>)
    ensures r == None <==> history.JNull? || history.JBool? || history.JInt?
  {
    match history
    case JArr(items) => Some(items)
    case JStr(s) => Some(Chars(s))
    // `reversed` on a dict yields its keys, which are strings and so are all skipped.
    case JObj(fields) => Some([])
    case _ => None
  }

  /** `extract_final_result(data)`. */
  function ExtractFinalResult(data: Json): (r: Outcome)
    ensures !data.JObj? ==> r == Returned(JNull)
    ensures data.JObj? && "final_result" in data.fields ==> r == Returned(data.fields["final_result"])
    ensures data.JObj? && "final_result" !in data.fields && "history" !in data.fields ==> r == Returned(JNull)
    ensures r.Crash? ==> data.JObj? && "final_result" !in data.fields && "history" in data.fields
    ensures r == Crash(HistoryNotReversible) <==>
              data.JObj? && "final_result" !in data.fields && "history" in data.fields &&
              HistoryEntries(data.fields["history"]) == None
  {
    if data.JObj? && "final_result" in data.fields then Returned(data.fields["final_result"])
    else if data.JObj? && "history" in data.fields then
      match HistoryEntries(data.fields["history"])
      case None => Crash(HistoryNotReversible)
      case Some(entries) =>
        var r := ScanHistory(entries);
        assert r != Crash(HistoryNotReversible) by { NoHistoryCrashFromScan(entries); }
        r
    else Returned(JNull)
  }

  /** Only `reversed` itself raises TypeError at the history site; the loops never do. */
  lemma {:induction false} NoHistoryCrashFromScan(entries: seq<Json>)
    ensures ScanHistory(entries) != Crash(HistoryNotReversible)
    decreases |entries|
  {
    if entries != [] {
      var last := |entries| - 1;
      match EntryStep(entries[last])
      case Stop(outcome) =>
        NoHistoryCrashFromActions(entries[last]);
      case Next =>
        NoHistoryCrashFromScan(entries[..last]);
    }
  }

  lemma NoHistoryCrashFromActions(entry: Json)
    ensures EntryStep(entry) != Stop(Crash(HistoryNotReversible))
  {
    if entry.JObj? && ActionsOf(entry.fields).Success? {
      var actions := ActionsOf(entry.fields).value;
      if ScanActions(actions).Stop? {
        var k :| 0 <= k < |actions| && ScanActions(actions) == ActionStep(actions[k]);
      }
    }
  }

  /** A history document with no `final_result` key: the shape the scan applies to. */
  function HistoryDoc(entries: seq<Json>, others: map<string, Json>): Json
  {
    JObj(others - {"final_result"} + map["history" := JArr(entries)])
  }

  /** The most recent entry that stops the scan decides the result; older entries are not consulted. */
  lemma MostRecentWins(entries: seq<Json>, others: map<string, Json>, k: nat)
    requires k < |entries| && EntryStep(entries[k]).Stop?
    requires forall j :: k < j < |entries| ==> EntryStep(entries[j]) == Next
    ensures ExtractFinalResult(HistoryDoc(entries, others)) == EntryStep(entries[k]).outcome
  {
    var doc := HistoryDoc(entries, others);
    assert "final_result" !in doc.fields && doc.fields["history"] == JArr(entries);
  }

  /** Without an entry that stops the scan, the result is None. */
  lemma NothingFoundIsNone(entries: seq<Json>, others: map<string, Json>)
    requires forall j :: 0 <= j < |entries| ==> EntryStep(entries[j]) == Next
    ensures ExtractFinalResult(HistoryDoc(entries, others)) == Returned(JNull)
  {
    var doc := HistoryDoc(entries, others);
    assert "final_result" !in doc.fields && doc.fields["history"] == JArr(entries);
  }

  /** A single action object is examined exactly as a one-element action list. */
  lemma SingletonActionIsList(entry: map<string, Json>, modelOutput: map<string, Json>, action: map<string, Json>)
    ensures EntryStep(JObj(entry["model_output" := JObj(modelOutput["action" := JObj(action)])])) ==
            EntryStep(JObj(entry["model_output" := JObj(modelOutput["action" := JArr([JObj(action)])])]))
  {
  }

  /** Within one entry, actions are examined in list order: the first that stops decides. */
  lemma {:induction false} FirstStoppingActionWins(actions: seq<Json>, k: nat)
    requires k < |actions| && ActionStep(actions[k]).Stop?
    requires forall j :: 0 <= j < k ==> ActionStep(actions[j]) == Next
    ensures ScanActions(actions) == ActionStep(actions[k])
    decreases k
  {
    if k > 0 {
      assert ActionStep(actions[0]) == Next;
      assert forall j :: 0 <= j < k - 1 ==> actions[1..][j] == actions[j + 1];
      FirstStoppingActionWins(actions[1..], k - 1);
    }
  }

  /** A dict `done` returns its `text` (None when absent); a string `done` is returned verbatim. */
  lemma DoneValue(action: map<string, Json>)
    requires "done" in action && (action["done"].JObj? || action["done"].JStr?)
    ensures ActionStep(JObj(action)) == Stop(Returned(
              if action["done"].JObj? then Get(action["done"].fields, "text", JNull) else action["done"]))
  {
  }

  /**
   * A newest entry whose first action is a `done` dict without `text` makes
   * the call return None, whatever the older entries hold.
   */
  lemma MissingTextStopsScan(older: seq<Json>, others: map<string, Json>,
                             entry: map<string, Json>, modelOutput: map<string, Json>,
                             done: map<string, Json>, rest: seq<Json>)
    requires "text" !in done
    ensures ExtractFinalResult(HistoryDoc(older + [JObj(entry["model_output" :=
              JObj(modelOutput["action" := JArr([JObj(map["done" := JObj(done)])] + rest)])])], others)) ==
            Returned(JNull)
  {
    var newest := JObj(entry["model_output" :=
                    JObj(modelOutput["action" := JArr([JObj(map["done" := JObj(done)])] + rest)])]);
    var entries := older + [newest];
    assert EntryStep(entries[|entries| - 1]) == Stop(Returned(JNull));
    MostRecentWins(entries, others, |entries| - 1);
  }

  /** A present `model_output` that is not a dict in the newest entry raises; it is not "not found". */
  lemma ModelOutputNotDictCrashes(older: seq<Json>, others: map<string, Json>,
                                  entry: map<string, Json>, modelOutput: Json)
    requires !modelOutput.JObj?
    ensures ExtractFinalResult(HistoryDoc(older + [JObj(entry["model_output" := modelOutput])], others)) ==
            Crash(ModelOutputNotDict)
  {
    var entries := older + [JObj(entry["model_output" := modelOutput])];
    MostRecentWins(entries, others, |entries| - 1);
  }

  /** An action that is not a dict, reached before any `done`, raises; it is not skipped. */
  lemma ActionNotDictCrashes(older: seq<Json>, others: map<string, Json>,
                             entry: map<string, Json>, modelOutput: map<string, Json>,
                             before: seq<Json>, action: Json, after: seq<Json>)
    requires !action.JObj?
    requires forall j :: 0 <= j < |before| ==> ActionStep(before[j]) == Next
    ensures ExtractFinalResult(HistoryDoc(older + [JObj(entry["model_output" :=
              JObj(modelOutput["action" := JArr(before + [action] + after)])])], others)) ==
            Crash(ActionNotDict)
  {
    var actions := before + [action] + after;
    var newest := JObj(entry["model_output" := JObj(modelOutput["action" := JArr(actions)])]);
    var entries := older + [newest];
    assert ActionsOf(newest.fields) == Success(actions);
    assert actions[|before|] == action;
    assert forall j :: 0 <= j < |before| ==> actions[j] == before[j];
    FirstStoppingActionWins(actions, |before|);
    assert EntryStep(newest) == Stop(Crash(ActionNotDict));
    MostRecentWins(entries, others, |entries| - 1);
  }

  /** A string `history` is iterated character by character; every character is skipped. */
  lemma StringHistoryIsNone(s: string, others: map<string, Json>)
    ensures ExtractFinalResult(JObj(others - {"final_result"} + map["history" := JStr(s)])) == Returned(JNull)
  {
    var doc := JObj(others - {"final_result"} + map["history" := JStr(s)]);
    assert "final_result" !in doc.fields && doc.fields["history"] == JStr(s);
    var entries := Chars(s);
    assert forall j :: 0 <= j < |entries| ==> EntryStep(entries[j]) == Next;
  }

  /** Two entries that both end in a `done`: the later one is returned. */
  lemma ExampleNewestDoneWins()
    ensures ExtractFinalResult(JObj(map["history" := JArr([
              JObj(map["model_output" := JObj(map["action" := JArr([JObj(map["done" := JObj(map["text" := JStr("A")])])])])]),
              JObj(map["model_output" := JObj(map["action" := JArr([JObj(map["done" := JObj(map["text" := JStr("B")])])])])])
            ])])) == Returned(JStr("B"))
  {
    var b := JObj(map["model_output" := JObj(map["action" := JArr([JObj(map["done" := JObj(map["text" := JStr("B")])])])])]);
    assert EntryStep(b) == Stop(Returned(JStr("B")));
  }

  /** A single action object with a string `done`. */
  lemma ExampleSingletonStringDone()
    ensures ExtractFinalResult(JObj(map["history" := JArr([
              JObj(map["model_output" := JObj(map["action" := JObj(map["done" := JStr("C")])])])
            ])])) == Returned(JStr("C"))
  {
    var e := JObj(map["model_output" := JObj(map["action" := JObj(map["done" := JStr("C")])])]);
    assert EntryStep(e) == Stop(Returned(JStr("C")));
  }
}
