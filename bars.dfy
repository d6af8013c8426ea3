/**
 * Bar frames as the test backends keep them: one asset's bars, oldest
 * first, indexed by the bar's time.
 */
module BarFrames {
  import opened Wrappers

  /** One bar: its time (minutes), prices and volume. */
  datatype Bar = Bar(time: int, open: real, high: real, low: real, close: real, volume: int)

  /** The columns of a bar frame. */
  const Fields: set<string> := {"open", "high", "low", "close", "volume"}

  /** The column of a bar named by a field, or `None` for a name that is not a column. */
  function FieldOf(b: Bar, field: string): (r: Option<real>)
    ensures r.Some? <==> field in Fields
    ensures field == "open" ==> r == Some(b.open)
    ensures field == "high" ==> r == Some(b.high)
    ensures field == "low" ==> r == Some(b.low)
    ensures field == "close" ==> r == Some(b.close)
    ensures field == "volume" ==> r == Some(b.volume as real)
  {
    if field == "open" then Some(b.open)
    else if field == "high" then Some(b.high)
    else if field == "low" then Some(b.low)
    else if field == "close" then Some(b.close)
    else if field == "volume" then Some(b.volume as real)
    else None
  }

  /** `df[dt:]` on a time-ordered frame: the bars at or after `dt`, in order. */
  function Since(df: seq<Bar>, dt: int): (r: seq<Bar>)
    ensures |r| <= |df|
    ensures forall i :: 0 <= i < |r| ==> r[i].time >= dt && r[i] in df
    ensures forall i :: 0 <= i < |df| && df[i].time >= dt ==> df[i] in r
  {
    if |df| == 0 then []
    else
      var rest := Since(df[1..], dt);
      assert forall i :: 1 <= i < |df| ==> df[i] == df[1..][i - 1];
      if df[0].time >= dt then [df[0]] + rest else rest
  }

  /** `df[:now]` on a time-ordered frame: the bars at or before `now`, in order. */
  function UpTo(df: seq<Bar>, now: int): (r: seq<Bar>)
    ensures |r| <= |df|
    ensures forall i :: 0 <= i < |r| ==> r[i].time <= now && r[i] in df
    ensures forall i :: 0 <= i < |df| && df[i].time <= now ==> df[i] in r
  {
    if |df| == 0 then []
    else
      var rest := UpTo(df[1..], now);
      assert forall i :: 1 <= i < |df| ==> df[i] == df[1..][i - 1];
      if df[0].time <= now then [df[0]] + rest else rest
  }

  /** Oldest first: the bar times never go down. */
  predicate TimeOrdered(df: seq<Bar>)
  {
    forall i, j :: 0 <= i < j < |df| ==> df[i].time <= df[j].time
  }

  /** Dropping the oldest bar keeps a frame time-ordered, and every later bar is at or after it. */
  lemma TimeOrderedTail(df: seq<Bar>)
    requires |df| > 0 && TimeOrdered(df)
    ensures TimeOrdered(df[1..])
    ensures forall i :: 0 <= i < |df| - 1 ==> df[0].time <= df[1..][i].time
  {
    forall i, j | 0 <= i < j < |df| - 1
      ensures df[1..][i].time <= df[1..][j].time
    {
      assert df[1..][i] == df[i + 1] && df[1..][j] == df[j + 1];
    }
    forall i | 0 <= i < |df| - 1
      ensures df[0].time <= df[1..][i].time
    {
      assert df[1..][i] == df[i + 1];
    }
  }

  /** The oldest bar followed by a prefix of the rest is a prefix. */
  lemma ConsPrefix(df: seq<Bar>, k: nat)
    requires k < |df|
    ensures [df[0]] + df[1..][..k] == df[..k + 1]
  {
  }

  /** The oldest bar followed by the rest is the frame. */
  lemma ConsWhole(df: seq<Bar>)
    requires |df| > 0
    ensures [df[0]] + df[1..] == df
  {
  }

  /** A suffix of the rest is a suffix of the whole frame. */
  lemma TailSuffix(df: seq<Bar>, k: nat)
    requires k < |df|
    ensures df[1..][|df| - 1 - k..] == df[|df| - k..]
  {
  }

  /** A frame all of whose bars are at or after `dt` is kept whole. */
  lemma {:induction false} SinceAll(df: seq<Bar>, dt: int)
    requires forall i :: 0 <= i < |df| ==> df[i].time >= dt
    ensures Since(df, dt) == df
  {
    if |df| > 0 {
      SinceAll(df[1..], dt);
      ConsWhole(df);
    }
  }

  /** On a time-ordered frame `df[dt:]` is a slice: the frame from the first bar at or after `dt` on. */
  lemma {:induction false} SinceIsSuffix(df: seq<Bar>, dt: int)
    requires TimeOrdered(df)
    ensures Since(df, dt) == df[|df| - |Since(df, dt)|..]
  {
    if |df| > 0 {
      var rest := df[1..];
      TimeOrderedTail(df);
      if df[0].time >= dt {
        SinceAll(rest, dt);
        assert Since(df, dt) == [df[0]] + rest;
        ConsWhole(df);
      } else {
        SinceIsSuffix(rest, dt);
        var u := Since(rest, dt);
        assert Since(df, dt) == u;
        TailSuffix(df, |u|);
      }
    }
  }

  /** A frame all of whose bars are after `now` keeps nothing. */
  lemma {:induction false} UpToNone(df: seq<Bar>, now: int)
    requires forall i :: 0 <= i < |df| ==> df[i].time > now
    ensures UpTo(df, now) == []
  {
    if |df| > 0 {
      UpToNone(df[1..], now);
    }
  }

  /** On a time-ordered frame `df[:now]` is a slice: the frame up to the last bar at or before `now`. */
  lemma {:induction false} UpToIsPrefix(df: seq<Bar>, now: int)
    requires TimeOrdered(df)
    ensures UpTo(df, now) == df[..|UpTo(df, now)|]
  {
    if |df| > 0 {
      var rest := df[1..];
      TimeOrderedTail(df);
      if df[0].time <= now {
        UpToIsPrefix(rest, now);
        var u := UpTo(rest, now);
        assert UpTo(df, now) == [df[0]] + u;
        ConsPrefix(df, |u|);
      } else {
        UpToNone(rest, now);
        assert UpTo(df, now) == [];
      }
    }
  }

  /** The highest high of a non-empty frame. */
  function MaxHigh(df: seq<Bar>): (m: real)
    requires |df| > 0
    ensures forall i :: 0 <= i < |df| ==> df[i].high <= m
    ensures exists i :: 0 <= i < |df| && df[i].high == m
  {
    if |df| == 1 then df[0].high
    else
      var m := MaxHigh(df[1..]);
      assert forall i :: 1 <= i < |df| ==> df[i] == df[1..][i - 1];
      if df[0].high >= m then df[0].high else m
  }

  /** The lowest low of a non-empty frame. */
  function MinLow(df: seq<Bar>): (m: real)
    requires |df| > 0
    ensures forall i :: 0 <= i < |df| ==> df[i].low >= m
    ensures exists i :: 0 <= i < |df| && df[i].low == m
  {
    if |df| == 1 then df[0].low
    else
      var m := MinLow(df[1..]);
      assert forall i :: 1 <= i < |df| ==> df[i] == df[1..][i - 1];
      if df[0].low <= m then df[0].low else m
  }
}
