/**
 * The query text the device-query handler sends upstream
 * (timestream-test/app.ts lines 40-50 and 86-95). Only what the handler
 * interpolates and which columns each branch selects are modelled: the
 * identifier filter, the `ago(...)` time bound and the select list.
 */
module DeviceQuery {
  import opened Text
  import opened Validation

  /** The two query shapes: several devices by `ids`, or one device by path. */
  datatype Query =
    | MultiDevice(deviceIds: seq<string>, timeWindow: string)
    | SingleDevice(deviceId: string, timeWindow: string)

  /** The value column: the measure read as a 64-bit integer, named `value`. */
  const ValueColumn := "measure_value::bigint as value"

  /**
   * The select list, in the order the cells of each result row follow:
   * the single-device query leaves out `id`, which its filter already pins.
   */
  function Columns(q: Query): (cols: seq<string>)
    ensures |cols| == if q.MultiDevice? then 4 else 3
    ensures forall i, j :: 0 <= i < j < |cols| ==> cols[i] != cols[j]
    ensures cols[0] == "time" && cols[|cols| - 1] == "measure_name"
    ensures q.MultiDevice? ==> cols[1] == "id" && cols[2] == ValueColumn
    ensures q.SingleDevice? ==> cols[1] == ValueColumn && "id" !in cols
  {
    match q
    case MultiDevice(_, _) => ["time", "id", ValueColumn, "measure_name"]
    case SingleDevice(_, _) => ["time", ValueColumn, "measure_name"]
  }

  /**
   * The `WHERE` condition on the device identifier. With one or more
   * identifiers the `IN` list holds each of them in quotes; a valid single
   * identifier cannot close its quoted literal early.
   */
  function IdFilter(q: Query): (f: string)
    ensures q.MultiDevice? && |q.deviceIds| >= 1 ==> f == "id IN (" + Join(Quoted(q.deviceIds), ",") + ")"
    ensures q.SingleDevice? && IsUuidV4(q.deviceId) ==> forall i :: 0 <= i < |f| && f[i] == '\'' ==> i == 5 || i == |f| - 1
  {
    match q
    case MultiDevice(ids, _) => "id IN (" + InList(ids) + ")"
    case SingleDevice(id, _) =>
      var f := "id = '" + id + "'";
      assert IsUuidV4(id) ==> forall i :: 0 <= i < |f| && f[i] == '\'' ==> i == 5 || i == |f| - 1 by {
        if IsUuidV4(id) {
          UuidHasNoDelimiter(id);
          OnlyOuterQuotes(id);
        }
      }
      f
  }

  /**
   * The text between the parentheses of `id IN (...)`: the ids joined with
   * `','`, in quotes. For one or more ids that is every id single-quoted and
   * the quoted ids comma-separated, in order.
   */
  function InList(ids: seq<string>): (l: string)
    ensures |ids| >= 1 ==> l == Join(Quoted(ids), ",")
  {
    var l := "'" + Join(ids, "','") + "'";
    assert |ids| >= 1 ==> l == Join(Quoted(ids), ",") by {
      if |ids| >= 1 {
        QuotedJoin(ids);
      }
    }
    l
  }

  /**
   * The `WHERE` condition on time: the window is the text between `ago(`
   * and the closing parenthesis, verbatim. For a valid window the only
   * closing parenthesis is the last character, so the window is the whole
   * argument of `ago`.
   */
  function TimeBound(q: Query): (b: string)
    ensures |b| == |q.timeWindow| + 13 && b[..12] == "time >= ago(" && b[|b| - 1] == ')'
    ensures b[12..|b| - 1] == q.timeWindow
    ensures IsTimeWindow(q.timeWindow) ==> forall i :: 0 <= i < |b| && b[i] == ')' ==> i == |b| - 1
  {
    var b := "time >= ago(" + q.timeWindow + ")";
    assert IsTimeWindow(q.timeWindow) ==> forall i :: 0 <= i < |b| && b[i] == ')' ==> i == |b| - 1 by {
      if IsTimeWindow(q.timeWindow) {
        AgoClosesOnce(q.timeWindow);
      }
    }
    b
  }

  /** The literal `id = '<id>'` of a quote-free identifier has just its two quotes. */
  lemma OnlyOuterQuotes(id: string)
    requires '\'' !in id
    ensures var f := "id = '" + id + "'";
      forall i :: 0 <= i < |f| && f[i] == '\'' ==> i == 5 || i == |f| - 1
  {
    var f := "id = '" + id + "'";
    forall i | 6 <= i < |f| - 1 ensures f[i] != '\'' {
      assert f[i] == id[i - 6];
    }
  }

  /** `time >= ago(<w>)` for a valid window `w` has just its final `)`. */
  lemma AgoClosesOnce(w: string)
    requires IsTimeWindow(w)
    ensures var b := "time >= ago(" + w + ")";
      forall i :: 0 <= i < |b| && b[i] == ')' ==> i == |b| - 1
  {
    var b := "time >= ago(" + w + ")";
    forall i | 12 <= i < |b| - 1 ensures b[i] != ')' {
      assert b[i] == w[i - 12];
      if 0 < i - 12 < |w| - 1 {
        assert IsDigit(w[i - 12]);
      }
    }
  }

  /**
   * For the identifiers `split(',')` takes from the raw `ids` parameter,
   * the `IN` list is the raw parameter in quotes with every comma turned
   * into `','`.
   */
  lemma InListOfRawIds(raw: string)
    ensures InList(Split(raw, ',')) == "'" + ReplaceChar(raw, ',', "','") + "'"
  {
    JoinSplitReplaces(raw, ',', "','");
  }

  /**
   * When every identifier is a valid UUID, the `IN` list's items (the text
   * between its commas) are exactly the quoted identifiers, so none of them
   * can add or merge items of the list.
   */
  lemma InListItemsAreIds(ids: seq<string>)
    requires |ids| >= 1
    requires forall i :: 0 <= i < |ids| ==> IsUuidV4(ids[i])
    ensures Split(Join(Quoted(ids), ","), ',') == Quoted(ids)
    ensures forall i :: 0 <= i < |ids| ==> '\'' !in ids[i]
  {
    var q := Quoted(ids);
    forall i | 0 <= i < |ids| ensures ',' !in q[i] && '\'' !in ids[i] {
      UuidHasNoDelimiter(ids[i]);
      assert q[i] == "'" + ids[i] + "'";
    }
    SplitJoin(q, ',');
  }
}
