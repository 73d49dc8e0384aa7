// What is kept of a run of recorded calls: every accepted call is either a row or counted as
// omitted, a call is omitted only at a limit, and the rows stand in call order.
module TraceRuns {
  import opened Outcomes
  import opened Numerals
  import opened Sequences
  import opened BoundedTrace
  import opened TraceStore
  import opened TraceWalks

  // A call the store accepts, whatever it holds.
  predicate Accepted(p: Policy, c: Call) {
    && OperationId(c.operation) && CategoryName(c.category) && c.payload.Object?
    && Recordable(p, p.redact(c.payload), 0, 0)
  }

  // The encoded size of what it would store.
  function SizeOf(p: Policy, c: Call): nat
    requires Accepted(p, c)
  {
    SucceedsIffRecordable(p, p.redact(c.payload), 0, 0);
    |p.encode(Bounded(p, c.payload).value.0)|
  }

  predicate HasRoom(p: Policy, t: Tables, c: Call)
    requires Accepted(p, c)
  {
    |t.rows| < MAX_RECORDS && Total(t.rows) + SizeOf(p, c) <= MAX_TOTAL_BYTES
  }

  // One call, on every table: refused and without effect, or kept as one more row if there is room,
  // or counted.
  lemma RecordedOrCounted(p: Policy, t: Tables, c: Call)
    ensures RecordOf(p, t, c).Ok? <==> Accepted(p, c)
    ensures !Accepted(p, c) ==> After(p, t, c) == t
    ensures Accepted(p, c) && HasRoom(p, t, c) ==>
      var n := After(p, t, c);
      && |n.rows| == |t.rows| + 1 && t.rows <= n.rows && WrittenBy(p, n.rows[|t.rows|], c) && n.omitted == t.omitted
    ensures Accepted(p, c) && !HasRoom(p, t, c) ==>
      After(p, t, c).rows == t.rows && After(p, t, c).omitted == t.omitted + 1
  {
    SucceedsIffRecordable(p, p.redact(c.payload), 0, 0);
  }

  function AcceptedCount(p: Policy, calls: seq<Call>): nat {
    if |calls| == 0 then 0 else
    AcceptedCount(p, calls[..|calls| - 1]) + (if Accepted(p, calls[|calls| - 1]) then 1 else 0)
  }

  // The rows come from these calls, one each and in their order.
  ghost predicate ComeFrom(p: Policy, rows: seq<Row>, calls: seq<Call>, origin: seq<nat>) {
    && |origin| == |rows|
    && (forall k :: 0 <= k < |origin| ==> origin[k] < |calls| && WrittenBy(p, rows[k], calls[origin[k]]))
    && forall j, k :: 0 <= j < k < |origin| ==> origin[j] < origin[k]
  }

  lemma StillComeFrom(p: Policy, rows: seq<Row>, calls: seq<Call>, origin: seq<nat>, c: Call)
    requires ComeFrom(p, rows, calls, origin)
    ensures ComeFrom(p, rows, calls + [c], origin)
  {
  }

  lemma OneMoreComesFrom(p: Policy, rows: seq<Row>, calls: seq<Call>, origin: seq<nat>, c: Call, row: Row)
    requires ComeFrom(p, rows, calls, origin) && WrittenBy(p, row, c)
    ensures ComeFrom(p, rows + [row], calls + [c], origin + [|calls|])
  {
  }

  // Over every run no accepted call is lost: it is a row or it was counted, and the rows are in the
  // order of their calls.
  lemma {:induction false} NothingIsLost(p: Policy, calls: seq<Call>) returns (origin: seq<nat>)
    ensures |Run(p, calls).rows| + Run(p, calls).omitted == AcceptedCount(p, calls)
    ensures ComeFrom(p, Run(p, calls).rows, calls, origin)
  {
    origin := [];
    if |calls| > 0 {
      var prefix, last := calls[..|calls| - 1], calls[|calls| - 1];
      origin := NothingIsLost(p, prefix);
      origin := OneMoreCall(p, prefix, last, Run(p, prefix), origin);
      assert calls == prefix + [last];
    }
  }

  lemma OneMoreCall(p: Policy, calls: seq<Call>, c: Call, t: Tables, origin: seq<nat>) returns (more: seq<nat>)
    requires ComeFrom(p, t.rows, calls, origin)
    ensures var n := After(p, t, c);
            && |n.rows| + n.omitted == |t.rows| + t.omitted + (if Accepted(p, c) then 1 else 0)
            && ComeFrom(p, n.rows, calls + [c], more)
  {
    var n := After(p, t, c);
    RecordedOrCounted(p, t, c);
    if Accepted(p, c) && HasRoom(p, t, c) {
      assert n.rows == t.rows + [n.rows[|t.rows|]];
      OneMoreComesFrom(p, t.rows, calls, origin, c, n.rows[|t.rows|]);
      more := origin + [|calls|];
    } else {
      StillComeFrom(p, t.rows, calls, origin, c);
      more := origin;
    }
  }

  // As long as no limit is reached nothing is omitted: the run keeps every accepted call.
  lemma {:induction false} AllKeptWithRoom(p: Policy, calls: seq<Call>)
    requires forall n :: 0 <= n < |calls| && Accepted(p, calls[n]) ==> HasRoom(p, Run(p, calls[..n]), calls[n])
    ensures Run(p, calls).omitted == 0 && |Run(p, calls).rows| == AcceptedCount(p, calls)
  {
    if |calls| > 0 {
      var prefix, last := calls[..|calls| - 1], calls[|calls| - 1];
      forall n | 0 <= n < |prefix| && Accepted(p, prefix[n])
        ensures HasRoom(p, Run(p, prefix[..n]), prefix[n])
      {
        assert prefix[..n] == calls[..n] && prefix[n] == calls[n];
      }
      AllKeptWithRoom(p, prefix);
      assert calls[..|calls| - 1] == prefix;
      RecordedOrCounted(p, Run(p, prefix), last);
    }
  }

  // What a row holds of a payload within the bounds: the whole of it, texts scrubbed and secrets
  // redacted, in canonical order; marked as truncated exactly if a text had to be cut.
  lemma RowHoldsThePayload(p: Policy, row: Row, c: Call)
    requires Sane(p) && WrittenBy(p, row, c)
    requires var v := p.redact(c.payload);
             Nodes(p, v, 0) <= MAX_NODES && !Deep(p, v, 0) && |p.encode(Redacted(p, v))| <= MAX_RECORD_BYTES
    ensures var v := p.redact(c.payload);
            && row.payload == Canon(Redacted(p, v)) && (row.truncated <==> !AllMet(p, Fits(p), v, 0, 0))
            && row.operation == c.operation && row.category == c.category && row.bytes == |p.encode(row.payload)|
  {
    var v := p.redact(c.payload);
    WithinBoundsAllIsKept(p, v, 0, 0);
    Flagged(p, v, 0, 0);
    SameText(p, Redacted(p, v));
  }

  // And of an oversized one: the two fields of a preview, with the longest prefix of the text.
  lemma OversizedIsPreviewed(p: Policy, payload: Tree, text: string)
    requires Clean(p, p.redact(payload), 0, 0).Ok?
    requires text == p.encode(Clean(p, p.redact(payload), 0, 0).value.value) && |text| > MAX_RECORD_BYTES
    ensures var r := Bounded(p, payload);
            && r.Ok? && r.value.1 && r.value.0.Object?
            && var first := r.value.0.fields;
            && first.Field? && first.key == p.why.0 && first.value == Text(p.why.1)
            && var second := first.rest;
            && second.Field? && second.key == p.shown && second.rest.NoFields? && second.value.Text?
            && IsLongestPrefix(second.value.text, text, PREVIEW_BYTES)
  {
    CutIsLongest(text, PREVIEW_BYTES);
  }

  // The longest prefix that encodes into the budget.
  ghost predicate IsLongestPrefix(r: string, s: string, budget: nat) {
    && r <= s && ByteLength(r) <= budget
    && (|r| < |s| ==> ByteLength(s[..|r| + 1]) > budget)
  }

  lemma {:induction false} CutIsLongest(s: string, budget: nat)
    ensures IsLongestPrefix(Cut(s, budget), s, budget)
  {
    var r := Cut(s, budget);
    if |s| > 0 && Width(s[0]) <= budget {
      CutIsLongest(s[1..], budget - Width(s[0]));
      if |r| < |s| {
        assert s[..|r| + 1][1..] == s[1..][..|r|];
      }
    } else if |s| > 0 {
      assert s[..1][0] == s[0];
    }
  }

  // ---- What a query selects -----------------------------------------------------------

  // These places of the table, in order, are those of the operations asked for.
  ghost predicate Picks(rows: seq<Row>, operations: set<string>, picks: seq<nat>) {
    && (forall i :: 0 <= i < |picks| ==> picks[i] < |rows| && rows[picks[i]].operation in operations)
    && (forall i, j :: 0 <= i < j < |picks| ==> picks[i] < picks[j])
    && forall k :: 0 <= k < |rows| && rows[k].operation in operations ==> k in picks
  }

  // A query selects every row of its operations, once and in table order, and no other.
  lemma {:induction false} SelectsItsRows(rows: seq<Row>, operations: set<string>) returns (picks: seq<nat>)
    ensures Picks(rows, operations, picks)
    ensures Selected(rows, operations) == seq(|picks|, i requires 0 <= i < |picks| => rows[picks[i]])
  {
    picks := [];
    if |rows| > 0 {
      var n := |rows| - 1;
      picks := SelectsItsRows(rows[..n], operations);
      if rows[n].operation in operations {
        PickOneMore(rows, operations, picks);
        picks := picks + [n];
      } else {
        PickNoMore(rows, operations, picks);
      }
    }
  }

  lemma PickOneMore(rows: seq<Row>, operations: set<string>, picks: seq<nat>)
    requires |rows| > 0 && Picks(rows[..|rows| - 1], operations, picks) && rows[|rows| - 1].operation in operations
    ensures Picks(rows, operations, picks + [|rows| - 1])
  {
    var n := |rows| - 1;
    forall k | 0 <= k < |rows| && rows[k].operation in operations
      ensures k in picks + [n]
    {
      assert k < n ==> rows[..n][k] == rows[k] && k in picks;
    }
  }

  lemma PickNoMore(rows: seq<Row>, operations: set<string>, picks: seq<nat>)
    requires |rows| > 0 && Picks(rows[..|rows| - 1], operations, picks) && rows[|rows| - 1].operation !in operations
    ensures Picks(rows, operations, picks)
  {
    var n := |rows| - 1;
    forall k | 0 <= k < |rows| && rows[k].operation in operations
      ensures k in picks
    {
      assert k < n && rows[..n][k] == rows[k];
    }
  }

  // ---- What a reader accepts ----------------------------------------------------------

  // A reader accepts a stored row if and only if recording its own payload would write that row again,
  // up to a truncation that was marked before.
  lemma ReadableIffRewritten(p: Policy, row: Row)
    requires Canon(row.payload) == row.payload
    ensures var c := Call(row.operation, row.category, row.payload);
            Readable(p, row) <==>
            exists again :: WrittenBy(p, again, c) && row == again.(truncated := row.truncated) &&
                            (again.truncated ==> row.truncated) && Bounded(p, row.payload).value.0 == row.payload
  {
    var c := Call(row.operation, row.category, row.payload);
    if Readable(p, row) {
      var (bounded, truncated) := Bounded(p, row.payload).value;
      assert WrittenBy(p, Row(row.operation, row.category, Canon(bounded), |p.encode(bounded)|, truncated), c);
    }
  }
}
