/**
 * `write_answer`: the decoded reply is turned into the sequence of render
 * calls it produces, plus the exception, if any, that escapes it.
 */
module Render {
  import opened Wrappers
  import opened Json

  datatype ChartKind = Bar | Line

  /** One column of a data frame: its name and its values in row order. */
  datatype Series = Series(name: Json, values: seq<Json>)

  /** A data frame as `st.table` receives it. */
  datatype Table = Table(columns: seq<Json>, rows: seq<seq<Json>>)

  /** `pd.DataFrame(data, columns=columns)`: the table, or the error pandas raises. */
  type DataFrameCtor = (Json, Json) -> Result<Table, PyError>

  /** The branch a caught failure is reported for. */
  datatype Branch = ChartBranch(kind: ChartKind) | TableBranch

  /** One render call. */
  datatype Action =
    | ErrorText(value: Json)                                // st.write(f"Error: {value}")
    | Text(value: Json)                                     // st.write(answer)
    | Chart(kind: ChartKind, index: Series, series: seq<Series>) // st.bar_chart / st.line_chart
    | TableView(table: Table)                               // st.table
    | BranchFailure(branch: Branch, error: PyError)         // st.write(f"Couldn't create ...: {e}")
    | Alert(error: PyError)                                 // st.error(f"An error occurred: {e}")

  /** What `write_answer` did: the render calls in order, and the exception that escaped it. */
  datatype Outcome = Outcome(actions: seq<Action>, escaped: Option<PyError>)

  /** What one branch of `write_answer` does: render, or raise past its own handler. */
  datatype Step = Emit(actions: seq<Action>) | Raise(error: PyError)

  function ChartKey(kind: ChartKind): string {
    match kind
    case Bar => "bar"
    case Line => "line"
  }

  /** The text `st.write` shows for an ErrorText of a scalar value. */
  function ErrorLine(value: Json): (r: Option<string>)
    ensures value.JString? ==> r == Some("Error: " + value.s)
  {
    match ScalarStr(value)
    case Some(s) => Some("Error: " + s)
    case None => None
  }

  /** The exceptions each branch's `except` clause names. */
  predicate Caught(branch: Branch, e: PyError) {
    match branch
    case ChartBranch(_) => e.ValueError? || e.IndexError?
    case TableBranch => e.ValueError?
  }

  /** `[x[i] for x in rows]`: column `i` read positionally out of every row, in row order. */
  function ColumnOf(rows: seq<Json>, i: nat): (r: Result<seq<Json>, PyError>)
    ensures r.Ok? <==> forall k :: 0 <= k < |rows| ==> At(rows[k], i).Ok?
    ensures r.Ok? ==> |r.value| == |rows| && forall k :: 0 <= k < |rows| ==> At(rows[k], i) == Ok(r.value[k])
    ensures r.Err? ==>
      exists k :: 0 <= k < |rows| && At(rows[k], i) == Err(r.error) &&
        forall j :: 0 <= j < k ==> At(rows[j], i).Ok?
  {
    if rows == [] then Ok([])
    else
      match At(rows[0], i)
      case Err(e) => Err(e)
      case Ok(v) =>
        match ColumnOf(rows[1..], i)
        case Err(e) => Err(e)
        case Ok(vs) => Ok([v] + vs)
  }

  /**
   * The dict comprehension `{col: [x[i] for x in payload["data"]] for i, col
   * in enumerate(cols)}` from position `i` on. Per column Python evaluates
   * the key, then `payload["data"]` and the list, and hashes the key last.
   */
  function Columns(payload: Json, cols: seq<Json>, i: nat): (r: Result<seq<Series>, PyError>)
    requires i <= |cols|
    ensures i < |cols| && Subscript(payload, "data").Err? ==> r == Err(Subscript(payload, "data").error)
    ensures r.Ok? ==> |r.value| == |cols| - i && forall j :: 0 <= j < |r.value| ==> r.value[j].name == cols[i + j]
    decreases |cols| - i
  {
    if i == |cols| then Ok([])
    else
      var data :- Subscript(payload, "data");
      var rows :- Iterate(data);
      var values :- ColumnOf(rows, i);
      if !Hashable(cols[i]) then Err(TypeError)
      else
        var rest :- Columns(payload, cols, i + 1);
        Ok([Series(cols[i], values)] + rest)
  }

  /** The position of the first column named `key`. */
  function NameIndex(frame: seq<Series>, key: Json): (j: nat)
    requires exists i :: 0 <= i < |frame| && frame[i].name == key
    ensures j < |frame| && frame[j].name == key
    ensures forall i :: 0 <= i < j ==> frame[i].name != key
  {
    if frame[0].name == key then 0 else 1 + NameIndex(frame[1..], key)
  }

  /** Removing position j + 1 of a frame is removing position j of its tail, after the head. */
  lemma SpliceTail(frame: seq<Series>, j: nat)
    requires j + 1 < |frame|
    ensures [frame[0]] + (frame[1..][..j] + frame[1..][j + 1..]) == frame[..j + 1] + frame[j + 2..]
  {
    assert frame[..j + 1] == [frame[0]] + frame[1..][..j];
    assert frame[j + 2..] == frame[1..][j + 1..];
  }

  /**
   * `df.set_index(key, inplace=True)`: the first column named key becomes
   * the index and leaves the columns, the others keep their order.
   */
  function SetIndex(frame: seq<Series>, key: Json): (r: Result<(Series, seq<Series>), PyError>)
    ensures r.Err? <==> forall j :: 0 <= j < |frame| ==> frame[j].name != key
    ensures r.Err? ==> r.error == KeyError(key)
    ensures r.Ok? ==>
      var j := NameIndex(frame, key);
      r.value == (frame[j], frame[..j] + frame[j + 1..])
  {
    if frame == [] then Err(KeyError(key))
    else if frame[0].name == key then
      assert frame[..0] + frame[1..] == frame[1..];
      Ok((frame[0], frame[1..]))
    else
      var r := SetIndex(frame[1..], key);
      if r.Err? then Err(r.error)
      else
        var j := NameIndex(frame[1..], key);
        assert NameIndex(frame, key) == j + 1;
        SpliceTail(frame, j);
        Ok((r.value.0, [frame[0]] + r.value.1))
  }

  /**
   * The dict comprehension and `set_index` of the bar and line branches of
   * `write_answer`: build the frame column by column, then index it by `columns[0]`.
   */
  function ChartData(payload: Json): (r: Result<(Series, seq<Series>), PyError>)
    ensures Subscript(payload, "columns").Err? ==> r == Err(Subscript(payload, "columns").error)
    ensures r.Ok? ==>
      && Subscript(payload, "columns").Ok?
      && At(Subscript(payload, "columns").value, 0) == Ok(r.value.0.name)
      && |r.value.1| + 1 == |Iterate(Subscript(payload, "columns").value).value|
  {
    var columns :- Subscript(payload, "columns");
    var cols :- Iterate(columns);
    var frame :- Columns(payload, cols, 0);
    var key :- At(columns, 0);
    SetIndex(frame, key)
  }

  /** A branch's result after its own `except` clause. */
  function Handle(branch: Branch, r: Result<Action, PyError>): (s: Step)
    ensures s.Raise? <==> r.Err? && !Caught(branch, r.error)
    ensures s.Raise? ==> s.error == r.error
    ensures r.Ok? ==> s == Emit([r.value])
    ensures r.Err? && Caught(branch, r.error) ==> s == Emit([BranchFailure(branch, r.error)])
  {
    match r
    case Ok(a) => Emit([a])
    case Err(e) => if Caught(branch, e) then Emit([BranchFailure(branch, e)]) else Raise(e)
  }

  function AnswerStep(members: seq<(string, Json)>): (s: Step)
    ensures s.Emit? && StepShaped(s, 0, Lookup(members, "answer").Some?)
    ensures Lookup(members, "answer").Some? ==> s == Emit([Text(Lookup(members, "answer").value)])
  {
    match Lookup(members, "answer")
    case Some(v) => Emit([Text(v)])
    case None => Emit([])
  }

  function ChartStep(kind: ChartKind, members: seq<(string, Json)>): (s: Step)
    ensures StepShaped(s, if kind == Bar then 1 else 2, Lookup(members, ChartKey(kind)).Some?)
    ensures Lookup(members, ChartKey(kind)).Some? && ChartData(Lookup(members, ChartKey(kind)).value).Ok? ==>
      var d := ChartData(Lookup(members, ChartKey(kind)).value).value;
      s == Emit([Chart(kind, d.0, d.1)])
    ensures Lookup(members, ChartKey(kind)).Some? && ChartData(Lookup(members, ChartKey(kind)).value).Err? ==>
      var e := ChartData(Lookup(members, ChartKey(kind)).value).error;
      s == if Caught(ChartBranch(kind), e) then Emit([BranchFailure(ChartBranch(kind), e)]) else Raise(e)
  {
    match Lookup(members, ChartKey(kind))
    case None => Emit([])
    case Some(payload) =>
      var d := ChartData(payload);
      if d.Ok? then Emit([Chart(kind, d.value.0, d.value.1)])
      else Handle(ChartBranch(kind), Err(d.error))
  }

  /** `pd.DataFrame(data["data"], columns=data["columns"])` of the table branch: `data["data"]` is evaluated first. */
  function TableData(payload: Json, frame: DataFrameCtor): (r: Result<Table, PyError>)
    ensures Subscript(payload, "data").Err? ==> r == Err(Subscript(payload, "data").error)
    ensures Subscript(payload, "data").Ok? && Subscript(payload, "columns").Err? ==>
      r == Err(Subscript(payload, "columns").error)
    ensures Subscript(payload, "data").Ok? && Subscript(payload, "columns").Ok? ==>
      r == frame(Subscript(payload, "data").value, Subscript(payload, "columns").value)
  {
    var data :- Subscript(payload, "data");
    var columns :- Subscript(payload, "columns");
    frame(data, columns)
  }

  function TableStep(members: seq<(string, Json)>, frame: DataFrameCtor): (s: Step)
    ensures StepShaped(s, 3, Lookup(members, "table").Some?)
    ensures Lookup(members, "table").Some? && TableData(Lookup(members, "table").value, frame).Ok? ==>
      s == Emit([TableView(TableData(Lookup(members, "table").value, frame).value)])
    ensures Lookup(members, "table").Some? && TableData(Lookup(members, "table").value, frame).Err? ==>
      var e := TableData(Lookup(members, "table").value, frame).error;
      s == if e.ValueError? then Emit([BranchFailure(TableBranch, e)]) else Raise(e)
  {
    match Lookup(members, "table")
    case None => Emit([])
    case Some(payload) =>
      var t := TableData(payload, frame);
      if t.Ok? then Emit([TableView(t.value)])
      else Handle(TableBranch, Err(t.error))
  }

  /** Run one more branch after `o`, unless an exception has already escaped. */
  function Then(o: Outcome, s: Step): Outcome {
    if o.escaped.Some? then o
    else
      match s
      case Emit(acts) => Outcome(o.actions + acts, None)
      case Raise(e) => Outcome(o.actions, Some(e))
  }

  /** The branches that run when there is no "error" key, in source order. */
  function Branches(members: seq<(string, Json)>, frame: DataFrameCtor): seq<Step> {
    [AnswerStep(members), ChartStep(Bar, members), ChartStep(Line, members), TableStep(members, frame)]
  }

  /**
   * `write_answer(response)` for a decoded dict. It never calls `st.error`
   * itself, and what escapes it is never a ValueError: every branch that
   * can raise catches those.
   */
  function Dispatch(response: Json, frame: DataFrameCtor): (o: Outcome)
    requires response.JObject?
    ensures forall i :: 0 <= i < |o.actions| ==> !o.actions[i].Alert?
    ensures o.escaped.Some? ==> Lookup(response.members, "error").None? && !o.escaped.value.ValueError?
  {
    var members := response.members;
    match Lookup(members, "error")
    case Some(v) => Outcome([ErrorText(v)], None)
    case None =>
      BranchesShaped(members, frame);
      RunOrder(Branches(members, frame), Present(members));
      Run(Branches(members, frame))
  }


  // ----- Order and independence of the branches -----

  /** The keys of the four branches, in the order `write_answer` tests them. */
  function BranchKey(t: nat): string
    requires t < 4
  {
    ["answer", "bar", "line", "table"][t]
  }

  /** The branch (0 answer, 1 bar, 2 line, 3 table) a render call belongs to. */
  function Tier(a: Action): nat {
    match a
    case ErrorText(_) => 0
    case Text(_) => 0
    case Chart(Bar, _, _) => 1
    case Chart(Line, _, _) => 2
    case TableView(_) => 3
    case BranchFailure(ChartBranch(Bar), _) => 1
    case BranchFailure(ChartBranch(Line), _) => 2
    case BranchFailure(TableBranch, _) => 3
    case Alert(_) => 4
  }

  /**
   * Step t renders at most one call, of tier t, exactly when `present`; it
   * raises only when `present`, and never a ValueError (every branch that
   * can raise catches those).
   */
  predicate StepShaped(s: Step, t: nat, present: bool) {
    match s
    case Emit(acts) => |acts| <= 1 && (|acts| == 1 <==> present) && (|acts| == 1 ==> Tier(acts[0]) == t)
    case Raise(e) => present && !e.ValueError?
  }

  ghost predicate Shaped(steps: seq<Step>, present: seq<bool>) {
    |present| == |steps| && forall t :: 0 <= t < |steps| ==> StepShaped(steps[t], t, present[t])
  }

  /** Tier t occurs among the render calls. */
  ghost predicate Rendered(actions: seq<Action>, t: nat) {
    exists i :: 0 <= i < |actions| && Tier(actions[i]) == t
  }

  ghost predicate Increasing(actions: seq<Action>) {
    forall i, j :: 0 <= i < j < |actions| ==> Tier(actions[i]) < Tier(actions[j])
  }

  ghost predicate Below(actions: seq<Action>, n: nat) {
    forall i :: 0 <= i < |actions| ==> Tier(actions[i]) < n
  }

  /** For every tier below n, the tier is rendered exactly when present. */
  ghost predicate Agrees(actions: seq<Action>, present: seq<bool>, n: nat)
    requires n <= |present|
  {
    forall u :: 0 <= u < n ==> (present[u] <==> Rendered(actions, u))
  }

  /** Appending the output of a well-shaped step n keeps the order and the agreement. */
  lemma AppendStep(actions: seq<Action>, acts: seq<Action>, present: seq<bool>, n: nat)
    requires n < |present|
    requires Increasing(actions) && Below(actions, n) && Agrees(actions, present, n)
    requires StepShaped(Emit(acts), n, present[n])
    ensures Increasing(actions + acts) && Below(actions + acts, n + 1) && Agrees(actions + acts, present, n + 1)
  {
    var all := actions + acts;
    assert forall i :: 0 <= i < |actions| ==> all[i] == actions[i];
    assert |acts| == 1 ==> all[|actions|] == acts[0];
    forall u | 0 <= u < n + 1 ensures present[u] <==> Rendered(all, u) {
      if Rendered(all, u) {
        var i :| 0 <= i < |all| && Tier(all[i]) == u;
        if i < |actions| { assert Tier(actions[i]) == u; } else { assert i == |actions|; }
      }
      if u < n && Rendered(actions, u) {
        var i :| 0 <= i < |actions| && Tier(actions[i]) == u;
        assert Tier(all[i]) == u;
      }
    }
  }

  /** Steps run one after another; the first exception that escapes stops the rest. */
  function Run(steps: seq<Step>): Outcome {
    if steps == [] then Outcome([], None)
    else Then(Run(steps[..|steps| - 1]), steps[|steps| - 1])
  }

  /**
   * Running well-shaped steps renders in strictly increasing tier order.
   * When nothing escapes, tier t is rendered exactly when step t is
   * present; when an exception escapes, it is the one raised by some step
   * t, every earlier step rendered as usual and no later step ran.
   */
  lemma {:induction false} RunOrder(steps: seq<Step>, present: seq<bool>)
    requires Shaped(steps, present)
    ensures Increasing(Run(steps).actions)
    ensures Run(steps).escaped.None? ==>
      Below(Run(steps).actions, |steps|) && Agrees(Run(steps).actions, present, |steps|)
    ensures Run(steps).escaped.Some? ==>
      exists t :: 0 <= t < |steps| && steps[t] == Raise(Run(steps).escaped.value) &&
        Below(Run(steps).actions, t) && Agrees(Run(steps).actions, present, t)
  {
    if steps != [] {
      var n := |steps| - 1;
      var prefix, pp := steps[..n], present[..n];
      assert Shaped(prefix, pp) by {
        forall t | 0 <= t < n ensures StepShaped(prefix[t], t, pp[t]) {
          assert prefix[t] == steps[t] && pp[t] == present[t];
        }
      }
      RunOrder(prefix, pp);
      var o := Run(prefix);
      assert Run(steps) == Then(o, steps[n]);
      assert Agrees(o.actions, pp, n) ==> Agrees(o.actions, present, n) by {
        assert forall u :: 0 <= u < n ==> pp[u] == present[u];
      }
      if o.escaped.None? {
        assert StepShaped(steps[n], n, present[n]);
        match steps[n]
        case Emit(acts) => AppendStep(o.actions, acts, present, n);
        case Raise(e) =>
      } else {
        var t :| 0 <= t < n && prefix[t] == Raise(o.escaped.value) && Below(o.actions, t) && Agrees(o.actions, pp, t);
        assert steps[t] == prefix[t];
        assert forall u :: 0 <= u < t ==> pp[u] == present[u];
        assert Agrees(o.actions, present, t);
      }
    }
  }

  /** Which of the four branch keys the reply holds. */
  function Present(members: seq<(string, Json)>): (p: seq<bool>)
    ensures |p| == 4
    ensures forall t :: 0 <= t < 4 ==> (p[t] <==> Lookup(members, BranchKey(t)).Some?)
  {
    [Lookup(members, "answer").Some?, Lookup(members, "bar").Some?,
     Lookup(members, "line").Some?, Lookup(members, "table").Some?]
  }

  /**
   * Branch t renders one call of its own tier when its key is present and
   * nothing when it is absent; only a present chart or table branch raises.
   */
  lemma BranchShape(members: seq<(string, Json)>, frame: DataFrameCtor, t: nat)
    requires t < 4
    ensures StepShaped(Branches(members, frame)[t], t, Present(members)[t])
    ensures t == 0 ==> Branches(members, frame)[t].Emit?
  {
  }

  /** The four branches, together, are well shaped. */
  lemma BranchesShaped(members: seq<(string, Json)>, frame: DataFrameCtor)
    ensures Shaped(Branches(members, frame), Present(members))
  {
    forall t | 0 <= t < 4
      ensures StepShaped(Branches(members, frame)[t], t, Present(members)[t])
    {
      BranchShape(members, frame, t);
    }
  }

  /**
   * With no "error" key, the render calls come in the fixed order answer,
   * bar, line, table, at most one per branch (Increasing). When nothing
   * escapes, a branch renders exactly when its key is present, whatever
   * the other branches did, a caught failure included (Agrees). When an
   * exception escapes, it was raised by a present chart or table branch t,
   * every earlier branch rendered as usual and no later branch ran.
   */
  lemma DispatchOrder(response: Json, frame: DataFrameCtor)
    requires response.JObject? && Lookup(response.members, "error").None?
    ensures var o := Dispatch(response, frame); var p := Present(response.members);
      && Increasing(o.actions)
      && (o.escaped.None? ==> Agrees(o.actions, p, 4))
      && (o.escaped.Some? ==>
            exists t :: 0 < t < 4 && p[t] && Branches(response.members, frame)[t] == Raise(o.escaped.value) &&
              Below(o.actions, t) && Agrees(o.actions, p, t))
  {
    BranchesShaped(response.members, frame);
    RunOrder(Branches(response.members, frame), Present(response.members));
  }

  /** The render calls of steps none of which raises, front to back. */
  function Emitted(steps: seq<Step>): seq<Action>
    requires forall t :: 0 <= t < |steps| ==> steps[t].Emit?
  {
    if steps == [] then [] else steps[0].actions + Emitted(steps[1..])
  }

  /** Emitting one more step appends its calls. */
  lemma {:induction false} EmittedSnoc(steps: seq<Step>, s: Step)
    requires forall t :: 0 <= t < |steps| ==> steps[t].Emit?
    requires s.Emit?
    ensures Emitted(steps + [s]) == Emitted(steps) + s.actions
    decreases |steps|
  {
    if steps == [] {
      assert [] + [s] == [s];
      assert [s][1..] == [];
    } else {
      assert (steps + [s])[1..] == steps[1..] + [s];
      EmittedSnoc(steps[1..], s);
    }
  }

  /** Once an exception has escaped, later steps do not run. */
  lemma {:induction false} RunEscaped(steps: seq<Step>, more: seq<Step>)
    requires Run(steps).escaped.Some?
    ensures Run(steps + more) == Run(steps)
    decreases |more|
  {
    if more == [] {
      assert steps + more == steps;
    } else {
      var init := more[..|more| - 1];
      assert (steps + more)[..|steps + more| - 1] == steps + init;
      RunEscaped(steps, init);
    }
  }

  /** Steps that all emit render all their calls; a first raising step t ends the run with its error after the calls of the steps before it. */
  lemma {:induction false} RunContents(steps: seq<Step>, t: nat)
    requires t <= |steps|
    requires forall u :: 0 <= u < t ==> steps[u].Emit?
    ensures t == |steps| ==> Run(steps) == Outcome(Emitted(steps), None)
    ensures t < |steps| && steps[t].Raise? ==> Run(steps) == Outcome(Emitted(steps[..t]), Some(steps[t].error))
    decreases t
  {
    if t > 0 {
      var prefix, last := steps[..t - 1], steps[t - 1];
      assert steps[..t] == prefix + [last];
      assert forall u :: 0 <= u < t - 1 ==> prefix[u].Emit?;
      RunContents(prefix, t - 1);
      assert steps[..t][..t - 1] == prefix;
      assert Run(steps[..t]) == Then(Run(prefix), last);
      EmittedSnoc(prefix, last);
    } else {
      assert steps[..0] == [];
    }
    if t < |steps| && steps[t].Raise? {
      assert steps[..t + 1][..t] == steps[..t];
      assert Run(steps[..t + 1]) == Outcome(Emitted(steps[..t]), Some(steps[t].error));
      RunEscaped(steps[..t + 1], steps[t + 1..]);
      assert steps[..t + 1] + steps[t + 1..] == steps;
    }
    if t == |steps| {
      assert steps[..t] == steps;
    }
  }

  /** The calls of four emitting steps, one after another. */
  lemma EmittedFour(s0: Step, s1: Step, s2: Step, s3: Step)
    requires s0.Emit? && s1.Emit? && s2.Emit? && s3.Emit?
    ensures Emitted([s0, s1, s2, s3]) == s0.actions + s1.actions + s2.actions + s3.actions
  {
    assert [s0, s1, s2, s3][1..] == [s1, s2, s3];
    assert [s1, s2, s3][1..] == [s2, s3];
    assert [s2, s3][1..] == [s3];
    assert [s3][1..] == [];
    assert Emitted([s3]) == s3.actions;
    assert Emitted([s2, s3]) == s2.actions + s3.actions;
    assert Emitted([s1, s2, s3]) == s1.actions + (s2.actions + s3.actions);
    assert s0.actions + (s1.actions + (s2.actions + s3.actions)) == s0.actions + s1.actions + s2.actions + s3.actions;
  }

  /**
   * With no "error" key the page shows exactly the branches' own calls:
   * all four in order when none raises, and when branch t is the first to
   * raise, the calls of the branches before it and t's exception.
   */
  lemma DispatchContents(response: Json, frame: DataFrameCtor)
    requires response.JObject? && Lookup(response.members, "error").None?
    ensures var b := Branches(response.members, frame);
      (forall t :: 0 <= t < 4 ==> b[t].Emit?) ==>
        Dispatch(response, frame) == Outcome(b[0].actions + b[1].actions + b[2].actions + b[3].actions, None)
    ensures var b := Branches(response.members, frame);
      forall t :: 0 <= t < 4 && b[t].Raise? && (forall u :: 0 <= u < t ==> b[u].Emit?) ==>
        Dispatch(response, frame) == Outcome(Emitted(b[..t]), Some(b[t].error))
  {
    var b := Branches(response.members, frame);
    assert Dispatch(response, frame) == Run(b);
    forall t | 0 <= t < 4 && b[t].Raise? && (forall u :: 0 <= u < t ==> b[u].Emit?)
      ensures Run(b) == Outcome(Emitted(b[..t]), Some(b[t].error))
    {
      RunContents(b, t);
    }
    if forall t :: 0 <= t < 4 ==> b[t].Emit? {
      RunContents(b, 4);
      assert b == [b[0], b[1], b[2], b[3]];
      EmittedFour(b[0], b[1], b[2], b[3]);
    }
  }

  /** Four steps run as four `if` statements in a row. */
  lemma RunFour(s0: Step, s1: Step, s2: Step, s3: Step)
    ensures Run([s0, s1, s2, s3]) == Then(Then(Then(Then(Outcome([], None), s0), s1), s2), s3)
  {
    assert [s0, s1, s2, s3][..3] == [s0, s1, s2];
    assert [s0, s1, s2][..2] == [s0, s1];
    assert [s0, s1][..1] == [s0];
    assert [s0][..0] == [];
    assert Run([s0]) == Then(Outcome([], None), s0);
    assert Run([s0, s1]) == Then(Run([s0]), s1);
    assert Run([s0, s1, s2]) == Then(Run([s0, s1]), s2);
  }

  /** An "error" key short-circuits: one ErrorText of its value and nothing else, whatever other keys there are. */
  lemma DispatchError(response: Json, frame: DataFrameCtor)
    requires response.JObject? && Lookup(response.members, "error").Some?
    ensures Dispatch(response, frame) == Outcome([ErrorText(Lookup(response.members, "error").value)], None)
  {
  }

  /** A reply with none of the five keys renders nothing. */
  lemma DispatchNoKeys(response: Json, frame: DataFrameCtor)
    requires response.JObject?
    requires forall i :: 0 <= i < |response.members| ==> response.members[i].0 !in {"error", "answer", "bar", "line", "table"}
    ensures Dispatch(response, frame) == Outcome([], None)
  {
    var b := Branches(response.members, frame);
    RunFour(b[0], b[1], b[2], b[3]);
    assert Lookup(response.members, "error").None?;
    assert Lookup(response.members, "answer").None?;
    assert Lookup(response.members, "bar").None?;
    assert Lookup(response.members, "line").None?;
    assert Lookup(response.members, "table").None?;
  }

  /**
   * A table the constructor rejects with ValueError is reported as a table
   * failure and does not hide a sibling answer.
   */
  lemma TableFailureKeepsAnswer(response: Json, frame: DataFrameCtor, answer: Json, payload: Json, message: string)
    requires response.JObject?
    requires Lookup(response.members, "error").None?
    requires Lookup(response.members, "bar").None? && Lookup(response.members, "line").None?
    requires Lookup(response.members, "answer") == Some(answer)
    requires Lookup(response.members, "table") == Some(payload)
    requires TableData(payload, frame) == Err(ValueError(message))
    ensures Dispatch(response, frame) == Outcome([Text(answer), BranchFailure(TableBranch, ValueError(message))], None)
  {
    var b := Branches(response.members, frame);
    RunFour(b[0], b[1], b[2], b[3]);
  }

  // ----- The bar and line charts: positional transposition -----

  /** Column j of rows that are all lists long enough: element j of every row, in row order. */
  function ColumnValues(rows: seq<Json>, j: nat): (r: seq<Json>)
    requires forall k :: 0 <= k < |rows| ==> rows[k].JArray? && j < |rows[k].items|
    ensures |r| == |rows|
  {
    seq(|rows|, k requires 0 <= k < |rows| => rows[k].items[j])
  }

  /** The reference frame: one series per column name, holding that position of every row. */
  function Transposed(cols: seq<Json>, rows: seq<Json>): (r: seq<Series>)
    requires forall k :: 0 <= k < |rows| ==> rows[k].JArray? && |cols| <= |rows[k].items|
    ensures |r| == |cols|
  {
    seq(|cols|, j requires 0 <= j < |cols| => Series(cols[j], ColumnValues(rows, j)))
  }

  /** Reading column j out of list rows fails, with IndexError, exactly when some row is too short. */
  lemma ColumnOfLists(rows: seq<Json>, j: nat)
    requires forall k :: 0 <= k < |rows| ==> rows[k].JArray?
    ensures ColumnOf(rows, j).Ok? <==> forall k :: 0 <= k < |rows| ==> j < |rows[k].items|
    ensures ColumnOf(rows, j).Err? ==> ColumnOf(rows, j).error == IndexError
    ensures ColumnOf(rows, j).Ok? ==> ColumnOf(rows, j).value == ColumnValues(rows, j)
  {
    var r := ColumnOf(rows, j);
    if r.Ok? {
      assert forall k :: 0 <= k < |rows| ==> At(rows[k], j) == Ok(r.value[k]);
    }
  }

  /** Over list rows, the comprehension from position i on fails, with IndexError, exactly when a row is too short. */
  lemma {:induction false} ColumnsOfListsFail(payload: Json, cols: seq<Json>, rows: seq<Json>, i: nat)
    requires i <= |cols|
    requires Subscript(payload, "data") == Ok(JArray(rows))
    requires forall k :: 0 <= k < |rows| ==> rows[k].JArray?
    requires forall j :: 0 <= j < |cols| ==> Hashable(cols[j])
    ensures Columns(payload, cols, i).Ok? <==> i == |cols| || forall k :: 0 <= k < |rows| ==> |cols| <= |rows[k].items|
    ensures Columns(payload, cols, i).Err? ==> Columns(payload, cols, i).error == IndexError
    decreases |cols| - i
  {
    if i < |cols| {
      ColumnOfLists(rows, i);
      assert Iterate(JArray(rows)) == Ok(rows);
      if ColumnOf(rows, i).Err? {
        assert Columns(payload, cols, i) == Err(IndexError);
        var k :| 0 <= k < |rows| && !(i < |rows[k].items|);
        assert |rows[k].items| < |cols|;
      } else {
        ColumnsOfListsFail(payload, cols, rows, i + 1);
        assert Columns(payload, cols, i).Ok? <==> Columns(payload, cols, i + 1).Ok?;
        if i + 1 == |cols| {
          assert forall k :: 0 <= k < |rows| ==> i < |rows[k].items|;
        }
      }
    }
  }

  /** Over list rows, a successful comprehension from position i on is the tail of the reference transposition. */
  lemma {:induction false} ColumnsOfListsValue(payload: Json, cols: seq<Json>, rows: seq<Json>, i: nat)
    requires i < |cols|
    requires Subscript(payload, "data") == Ok(JArray(rows))
    requires forall k :: 0 <= k < |rows| ==> rows[k].JArray? && |cols| <= |rows[k].items|
    requires forall j :: 0 <= j < |cols| ==> Hashable(cols[j])
    ensures Columns(payload, cols, i) == Ok(Transposed(cols, rows)[i..])
    decreases |cols| - i
  {
    ColumnOfLists(rows, i);
    assert Iterate(JArray(rows)) == Ok(rows);
    assert ColumnOf(rows, i) == Ok(ColumnValues(rows, i));
    assert Transposed(cols, rows)[i] == Series(cols[i], ColumnValues(rows, i));
    if i + 1 < |cols| {
      ColumnsOfListsValue(payload, cols, rows, i + 1);
      assert Transposed(cols, rows)[i..] == [Transposed(cols, rows)[i]] + Transposed(cols, rows)[i + 1..];
    } else {
      assert Columns(payload, cols, i + 1) == Ok([]);
      assert [Series(cols[i], ColumnValues(rows, i))] + [] == [Transposed(cols, rows)[i]];
      assert Transposed(cols, rows)[i..] == [Transposed(cols, rows)[i]];
    }
  }

  /** The comprehension from position i on, over list columns and list rows. */
  lemma ColumnsOfLists(payload: Json, cols: seq<Json>, rows: seq<Json>, i: nat)
    requires i <= |cols|
    requires Subscript(payload, "data") == Ok(JArray(rows))
    requires forall k :: 0 <= k < |rows| ==> rows[k].JArray?
    requires forall j :: 0 <= j < |cols| ==> Hashable(cols[j])
    ensures Columns(payload, cols, i).Ok? <==> i == |cols| || forall k :: 0 <= k < |rows| ==> |cols| <= |rows[k].items|
    ensures Columns(payload, cols, i).Err? ==> Columns(payload, cols, i).error == IndexError
    ensures Columns(payload, cols, i).Ok? && i < |cols| ==> Columns(payload, cols, i).value == Transposed(cols, rows)[i..]
  {
    ColumnsOfListsFail(payload, cols, rows, i);
    if Columns(payload, cols, i).Ok? && i < |cols| {
      ColumnsOfListsValue(payload, cols, rows, i);
    }
  }

  /**
   * The bar and line payload `{"columns": cols, "data": rows}` with list
   * rows and hashable column names: series j holds element j of every row
   * and the first column becomes the index. It fails, with IndexError,
   * exactly when `columns` is empty or some row is shorter than `columns`;
   * longer rows are cut to the length of `columns`.
   */
  lemma ChartTransposition(payload: Json, cols: seq<Json>, rows: seq<Json>)
    requires Subscript(payload, "columns") == Ok(JArray(cols))
    requires Subscript(payload, "data") == Ok(JArray(rows))
    requires forall k :: 0 <= k < |rows| ==> rows[k].JArray?
    requires forall j :: 0 <= j < |cols| ==> Hashable(cols[j])
    ensures ChartData(payload).Ok? <==> |cols| >= 1 && forall k :: 0 <= k < |rows| ==> |cols| <= |rows[k].items|
    ensures ChartData(payload).Err? ==> ChartData(payload).error == IndexError
    ensures ChartData(payload).Ok? ==>
      ChartData(payload).value == (Transposed(cols, rows)[0], Transposed(cols, rows)[1..])
  {
    ColumnsOfLists(payload, cols, rows, 0);
    if |cols| >= 1 && Columns(payload, cols, 0).Ok? {
      var frame := Columns(payload, cols, 0).value;
      assert frame[0].name == cols[0];
    }
  }

  /** A missing "columns" key raises KeyError, which the chart branch does not catch. */
  lemma ChartMissingColumns(payload: Json)
    requires payload.JObject? && Lookup(payload.members, "columns").None?
    ensures ChartData(payload) == Err(KeyError(JString("columns")))
    ensures !Caught(ChartBranch(Bar), KeyError(JString("columns")))
  {
  }

  /**
   * A missing "data" key raises KeyError when there is a column to fill,
   * but with an empty column list `data` is never read and `columns[0]`
   * raises the IndexError the branch catches.
   */
  lemma ChartMissingData(payload: Json, cols: seq<Json>)
    requires payload.JObject? && Lookup(payload.members, "data").None?
    requires Lookup(payload.members, "columns") == Some(JArray(cols))
    ensures |cols| > 0 ==> ChartData(payload) == Err(KeyError(JString("data")))
    ensures |cols| == 0 ==> ChartData(payload) == Err(IndexError)
  {
  }

  /**
   * A flat `data` list of numbers, as in the prompt's own bar example,
   * makes `x[0]` raise TypeError, which escapes the chart branch.
   */
  lemma ChartFlatData(payload: Json, cols: seq<Json>, rows: seq<Json>)
    requires Subscript(payload, "columns") == Ok(JArray(cols)) && |cols| > 0
    requires Subscript(payload, "data") == Ok(JArray(rows)) && |rows| > 0 && rows[0].JInt?
    ensures ChartData(payload) == Err(TypeError)
    ensures !Caught(ChartBranch(Bar), TypeError) && !Caught(ChartBranch(Line), TypeError)
  {
  }

  /** The payload of the bar example below: two columns and two rows. */
  function ExamplePayload(): Json {
    JObject([("columns", JArray([JString("Category"), JString("Count")])),
             ("data", JArray([JArray([JString("A"), JInt(5)]), JArray([JString("B"), JInt(3)])]))])
  }

  /** The reference transposition of the example's rows. */
  lemma ExampleTransposed()
    ensures Transposed([JString("Category"), JString("Count")],
                       [JArray([JString("A"), JInt(5)]), JArray([JString("B"), JInt(3)])]) ==
      [Series(JString("Category"), [JString("A"), JString("B")]), Series(JString("Count"), [JInt(5), JInt(3)])]
  {
    var rows := [JArray([JString("A"), JInt(5)]), JArray([JString("B"), JInt(3)])];
    assert ColumnValues(rows, 0) == [JString("A"), JString("B")];
    assert ColumnValues(rows, 1) == [JInt(5), JInt(3)];
  }

  /** The example's frame: Category becomes the index and Count = [5, 3] the one series. */
  lemma ExampleFrame()
    ensures ChartData(ExamplePayload()) ==
      Ok((Series(JString("Category"), [JString("A"), JString("B")]), [Series(JString("Count"), [JInt(5), JInt(3)])]))
  {
    var cols := [JString("Category"), JString("Count")];
    var rows := [JArray([JString("A"), JInt(5)]), JArray([JString("B"), JInt(3)])];
    ChartTransposition(ExamplePayload(), cols, rows);
    ExampleTransposed();
    var t := Transposed(cols, rows);
    assert t[1..] == [t[1]];
  }

  /** `{"bar": {"columns": ["Category", "Count"], "data": [["A", 5], ["B", 3]]}}` draws Count = [5, 3] over the index A, B. */
  lemma BarExample()
    ensures ChartStep(Bar, [("bar", ExamplePayload())]) ==
      Emit([Chart(Bar, Series(JString("Category"), [JString("A"), JString("B")]),
                       [Series(JString("Count"), [JInt(5), JInt(3)])])])
  {
    ExampleFrame();
  }
}
