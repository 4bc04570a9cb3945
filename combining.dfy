/** `combine_marketing_data` (src/data_processor.py): the three cleaned ad feeds
    stacked in the order Facebook, Google, TikTok under the union of their
    columns, then every required count column that none of them had added as
    zeros; and the reading of the combined and business frames as typed rows. */
module Combining {
  import opened Base
  import opened Seqs
  import opened Frames
  import opened Cleaning
  import opened Metrics
  import opened Merging

  const RequiredColumns: seq<string> := ["impressions", "clicks", "spend", "revenue"]

  /** The frame with every missing listed column appended as zeros: what the loop
      `if col not in df.columns: df[col] = 0` leaves behind. */
  function AddMissing(t: Table, required: seq<string>): (r: Table)
    ensures r.columns == t.columns + MissingColumns(t.columns, required)
    ensures |r.rows| == |t.rows|
    ensures forall i, k :: 0 <= i < |t.rows| && 0 <= k < |t.columns| ==> r.rows[i][k] == t.rows[i][k]
    ensures forall i, k :: 0 <= i < |t.rows| && |t.columns| <= k < |r.columns| ==> r.rows[i][k] == Num(0.0)
  {
    var m := MissingColumns(t.columns, required);
    Grid(t.columns + m,
         seq(|t.rows|, i requires 0 <= i < |t.rows| => t.rows[i] + seq(|m|, _ => Num(0.0))))
  }

  /** `pd.concat([facebook, google, tiktok], ignore_index=True, sort=False)`. */
  function Stack(f: Table, g: Table, t: Table): Table
  {
    Concat(Concat(f, g), t)
  }

  /** `combine_marketing_data`: fails when any feed fails to clean. */
  function CombineMarketing(fb: Table, gg: Table, tt: Table, p: Parsers): Result<Table, CleanError>
  {
    match CleanMarketing(fb, "Facebook", p)
    case Failure(e) => Failure(e)
    case Success(f) =>
      match CleanMarketing(gg, "Google", p)
      case Failure(e) => Failure(e)
      case Success(g) =>
        match CleanMarketing(tt, "TikTok", p)
        case Failure(e) => Failure(e)
        case Success(t) => Success(AddMissing(Stack(f, g, t), RequiredColumns))
  }

  // ---------------------------------------------------------------------------
  // The loop that adds missing columns, one pass at a time

  lemma AddNothing(t: Table)
    ensures AddMissing(t, []) == t
  {
    var r := AddMissing(t, []);
    forall i | 0 <= i < |t.rows| ensures r.rows[i] == t.rows[i] {
    }
  }

  /** One pass for column `c`: nothing when the frame has it, else a zero column. */
  lemma AddStep(t: Table, required: seq<string>, c: string)
    requires c !in required
    ensures var cur := AddMissing(t, required);
      AddMissing(t, required + [c]) == (if c in cur.columns then cur else SetColumn(cur, c, Num(0.0)))
  {
    MissingAppend(t.columns, required, c);
    if c !in t.columns {
      AddAbsent(t, required, c);
    }
  }

  /** Listing one more column extends the missing list by it exactly when the
      frame lacks it. */
  lemma MissingAppend(cols: seq<string>, required: seq<string>, c: string)
    ensures MissingColumns(cols, required + [c]) ==
      MissingColumns(cols, required) + (if c in cols then [] else [c])
  {
    var keep := AbsentFrom(cols);
    FilterAppend(required, [c], keep);
    if c in cols {
      assert Filter([c], keep) == [];
    } else {
      assert Filter([c], keep) == [c];
    }
  }

  /** The pass for a column that neither the frame nor the earlier passes have
      appends it as zeros. */
  lemma AddAbsent(t: Table, required: seq<string>, c: string)
    requires c !in t.columns && c !in required
    ensures AddMissing(t, required + [c]) == SetColumn(AddMissing(t, required), c, Num(0.0))
  {
    var cur := AddMissing(t, required);
    var a := AddMissing(t, required + [c]);
    var b := SetColumn(cur, c, Num(0.0));
    MissingAppend(t.columns, required, c);
    MissingColumnsSpec(t.columns, required);
    assert c !in cur.columns;
    assert a.columns == b.columns;
    assert IndexOf(b.columns, c) == Some(|cur.columns|) by {
      assert b.columns[..|cur.columns|] == cur.columns;
      IndexOfAt(b.columns, c, |cur.columns|);
    }
    forall i | 0 <= i < |t.rows| ensures a.rows[i] == b.rows[i] {
      assert Cell(b, i, c) == Num(0.0);
      forall k | 0 <= k < |a.columns| ensures a.rows[i][k] == b.rows[i][k] {
        if k < |cur.columns| {
          assert cur.columns[k] != c;
        }
      }
    }
  }

  // ---------------------------------------------------------------------------
  // Properties

  /** Combining fails exactly when one of the three feeds has no date column. */
  lemma CombineFails(fb: Table, gg: Table, tt: Table, p: Parsers)
    ensures CombineMarketing(fb, gg, tt, p).Failure? <==>
      DateIndex(fb).None? || DateIndex(gg).None? || DateIndex(tt).None?
  {
  }

  lemma AddMissingCell(t: Table, required: seq<string>, i: nat, name: string)
    requires i < |t.rows|
    ensures name in t.columns ==> Cell(AddMissing(t, required), i, name) == Cell(t, i, name)
    ensures name !in t.columns && name in required ==> Cell(AddMissing(t, required), i, name) == Num(0.0)
  {
    var r := AddMissing(t, required);
    if name in t.columns {
      IndexOfPrefix(t.columns, MissingColumns(t.columns, required), name);
    } else if name in required {
      var m := MissingColumns(t.columns, required);
      assert name in m;
      assert name in r.columns;
    }
  }

  lemma StackCell(f: Table, g: Table, t: Table, i: nat, name: string)
    requires i < |f.rows| + |g.rows| + |t.rows|
    ensures |Stack(f, g, t).rows| == |f.rows| + |g.rows| + |t.rows|
    ensures i < |f.rows| && name in f.columns ==> Cell(Stack(f, g, t), i, name) == Cell(f, i, name)
    ensures |f.rows| <= i < |f.rows| + |g.rows| && name in g.columns ==>
      Cell(Stack(f, g, t), i, name) == Cell(g, i - |f.rows|, name)
    ensures |f.rows| + |g.rows| <= i && name in t.columns ==>
      Cell(Stack(f, g, t), i, name) == Cell(t, i - |f.rows| - |g.rows|, name)
  {
    var fg := Concat(f, g);
    if i < |f.rows| + |g.rows| {
      if (i < |f.rows| && name in f.columns) || (i >= |f.rows| && name in g.columns) {
        assert name in fg.columns;
        ConcatCell(fg, t, i, name);
        ConcatCell(f, g, i, name);
      }
    } else if name in t.columns {
      ConcatCell(fg, t, i, name);
    }
  }

  /** A successful combination is the stack of the three cleaned feeds with the
      missing count columns added. */
  lemma CombineValue(fb: Table, gg: Table, tt: Table, p: Parsers, f: Table, g: Table, t: Table)
    requires CleanMarketing(fb, "Facebook", p) == Success(f)
    requires CleanMarketing(gg, "Google", p) == Success(g)
    requires CleanMarketing(tt, "TikTok", p) == Success(t)
    ensures CombineMarketing(fb, gg, tt, p) == Success(AddMissing(Stack(f, g, t), RequiredColumns))
  {
  }

  /** The combined frame has every row of the three cleaned feeds, Facebook's
      first, then Google's, then TikTok's, each cell as cleaned. */
  lemma CombineRows(f: Table, g: Table, t: Table, i: nat, name: string)
    ensures var out := AddMissing(Stack(f, g, t), RequiredColumns);
      && |out.rows| == |f.rows| + |g.rows| + |t.rows|
      && (i < |f.rows| && name in f.columns ==> Cell(out, i, name) == Cell(f, i, name))
      && (|f.rows| <= i < |f.rows| + |g.rows| && name in g.columns ==>
            Cell(out, i, name) == Cell(g, i - |f.rows|, name))
      && (|f.rows| + |g.rows| <= i < |out.rows| && name in t.columns ==>
            Cell(out, i, name) == Cell(t, i - |f.rows| - |g.rows|, name))
  {
    var s := Stack(f, g, t);
    assert |s.rows| == |f.rows| + |g.rows| + |t.rows|;
    if i < |s.rows| {
      StackCell(f, g, t, i, name);
      if name in s.columns {
        AddMissingCell(s, RequiredColumns, i, name);
      } else {
        assert name !in f.columns + g.columns + t.columns by {
          assert forall x :: x in f.columns + g.columns ==> x in Concat(f, g).columns;
        }
      }
    }
  }

  /** Every required count column is present in the combined frame; one that no
      feed had reads 0 in every row. */
  lemma CombineRequired(f: Table, g: Table, t: Table, i: nat, name: string)
    requires name in RequiredColumns
    ensures var out := AddMissing(Stack(f, g, t), RequiredColumns);
      && name in out.columns
      && (i < |out.rows| && name !in f.columns + g.columns + t.columns ==> Cell(out, i, name) == Num(0.0))
  {
    var s := Stack(f, g, t);
    var out := AddMissing(s, RequiredColumns);
    assert name in out.columns by {
      if name !in s.columns {
        assert name in MissingColumns(s.columns, RequiredColumns);
      }
    }
    if i < |out.rows| && name !in f.columns + g.columns + t.columns {
      assert name !in s.columns;
      AddMissingCell(s, RequiredColumns, i, name);
    }
  }

  /** Every combined row carries a parsed date and the label of the feed it came
      from. */
  lemma CombineLabels(fb: Table, gg: Table, tt: Table, p: Parsers, f: Table, g: Table, t: Table, i: nat)
    requires CleanMarketing(fb, "Facebook", p) == Success(f)
    requires CleanMarketing(gg, "Google", p) == Success(g)
    requires CleanMarketing(tt, "TikTok", p) == Success(t)
    requires i < |f.rows| + |g.rows| + |t.rows|
    ensures var out := AddMissing(Stack(f, g, t), RequiredColumns);
      && i < |out.rows|
      && Cell(out, i, "date").Day?
      && Cell(out, i, "channel") ==
           Text(if i < |f.rows| then "Facebook" else if i < |f.rows| + |g.rows| then "Google" else "TikTok")
  {
    CleanedLabels(fb, "Facebook", p, f);
    CleanedLabels(gg, "Google", p, g);
    CleanedLabels(tt, "TikTok", p, t);
    CombineRows(f, g, t, i, "date");
    CombineRows(f, g, t, i, "channel");
  }

  /** A cleaned marketing frame has `date` and `channel` columns, a day in every
      date cell and the label in every channel cell. */
  lemma CleanedLabels(df: Table, channel: string, p: Parsers, out: Table)
    requires CleanMarketing(df, channel, p) == Success(out)
    ensures "date" in out.columns && "channel" in out.columns
    ensures forall i :: 0 <= i < |out.rows| ==> Cell(out, i, "date").Day? && Cell(out, i, "channel") == Text(channel)
  {
    CleanMarketingColumns(df, channel, p);
    CleanMarketingRows(df, channel, p);
  }

  // ---------------------------------------------------------------------------
  // Reading frames as typed rows

  /** A date cell as a day number (cleaned frames hold a day in every row). */
  function DayOf(v: Value): int
  {
    if v.Day? then v.d else 0
  }

  /** A channel cell as its label (cleaned marketing frames hold one in every row). */
  function LabelOf(v: Value): string
  {
    if v.Text? then v.s else ""
  }

  /** Row `i` of a marketing frame, each count read by column name (NaN as 0). */
  function AdRowAt(t: Table, i: nat): AdRow
    requires i < |t.rows|
  {
    AdRow(DayOf(Cell(t, i, "date")), LabelOf(Cell(t, i, "channel")),
          Counts(NumberOf(Cell(t, i, "impressions")), NumberOf(Cell(t, i, "clicks")),
                 NumberOf(Cell(t, i, "spend")), NumberOf(Cell(t, i, "revenue"))))
  }

  function AdRows(t: Table): (r: seq<AdRow>)
    ensures |r| == |t.rows|
    ensures forall i :: 0 <= i < |t.rows| ==> r[i] == AdRowAt(t, i)
  {
    seq(|t.rows|, i requires 0 <= i < |t.rows| => AdRowAt(t, i))
  }

  /** Row `i` of a cleaned business frame, each figure read by column name. */
  function BizRowAt(t: Table, i: nat): BizRow
    requires i < |t.rows|
  {
    BizRow(DayOf(Cell(t, i, "date")),
           Business(NumberOf(Cell(t, i, "orders")), NumberOf(Cell(t, i, "new_orders")),
                    NumberOf(Cell(t, i, "new_customers")), NumberOf(Cell(t, i, "total_revenue")),
                    NumberOf(Cell(t, i, "gross_profit")), NumberOf(Cell(t, i, "cogs"))))
  }

  function BizRows(t: Table): (r: seq<BizRow>)
    ensures |r| == |t.rows|
    ensures forall i :: 0 <= i < |t.rows| ==> r[i] == BizRowAt(t, i)
  {
    seq(|t.rows|, i requires 0 <= i < |t.rows| => BizRowAt(t, i))
  }
}
