/**
 * The aggregate projection of the TRANSFORM query in run_testing.py:
 * `MAX(server_ts / 1000)` and `CONCAT('last_5_clicks=', LISTAGG(item_id))`
 * over a user's retained events.
 */
module Aggregation {
  import opened Wrappers
  import opened TopN

  const MillisPerSecond: int := 1000

  /** The literal that opens every feature string. */
  const FeaturePrefix: string := "last_5_clicks="

  /** What the sink receives for a user: the seconds value and the feature string. */
  datatype FeatureRecord = FeatureRecord(user: int, seconds: int, feature: string)

  /**
   * `server_ts / 1000` on BIGINT: integer division that rounds toward zero,
   * as the engine's long division does.
   */
  function SecondsOf(ms: int): (r: int)
    ensures ms >= 0 ==> r * MillisPerSecond <= ms < r * MillisPerSecond + MillisPerSecond
    ensures ms < 0 ==> r * MillisPerSecond - MillisPerSecond < ms <= r * MillisPerSecond
  {
    if ms >= 0 then ms / MillisPerSecond else -((-ms) / MillisPerSecond)
  }

  /** Rounding toward zero never reverses the order of two timestamps. */
  lemma SecondsOfMonotone(a: int, b: int)
    requires a <= b
    ensures SecondsOf(a) <= SecondsOf(b)
  {
  }

  /** The largest timestamp of a non-empty sequence. */
  function MaxTs(s: seq<QEvent>): (m: int)
    requires |s| > 0
    ensures s[0].ts <= m && s[|s| - 1].ts <= m
  {
    if |s| == 1 then s[0].ts
    else
      var m := MaxTs(s[1..]);
      if s[0].ts >= m then s[0].ts else m
  }

  /** `MaxTs` is the maximum: no timestamp exceeds it, and some event carries it. */
  lemma {:induction false} MaxTsIsMaximum(s: seq<QEvent>)
    requires |s| > 0
    ensures forall i :: 0 <= i < |s| ==> s[i].ts <= MaxTs(s)
    ensures exists i :: 0 <= i < |s| && s[i].ts == MaxTs(s)
  {
    if |s| > 1 {
      MaxTsIsMaximum(s[1..]);
      assert forall i :: 1 <= i < |s| ==> s[i] == s[1..][i - 1];
      if s[0].ts < MaxTs(s[1..]) {
        var j :| 0 <= j < |s[1..]| && s[1..][j].ts == MaxTs(s[1..]);
        assert s[j + 1].ts == MaxTs(s);
      } else {
        assert s[0].ts == MaxTs(s);
      }
    } else {
      assert s[0].ts == MaxTs(s);
    }
  }

  /** `MAX(server_ts / 1000)`: the largest per-event seconds value. */
  function MaxSeconds(s: seq<QEvent>): (m: int)
    requires |s| > 0
    ensures SecondsOf(s[0].ts) <= m && SecondsOf(s[|s| - 1].ts) <= m
  {
    if |s| == 1 then SecondsOf(s[0].ts)
    else
      var m := MaxSeconds(s[1..]);
      if SecondsOf(s[0].ts) >= m then SecondsOf(s[0].ts) else m
  }

  /**
   * Taking the maximum and dividing commute: `MAX(ts / 1000)` equals
   * `MAX(ts) / 1000`, for every sign of timestamp.
   */
  lemma {:induction false} MaxCommutesWithSeconds(s: seq<QEvent>)
    requires |s| > 0
    ensures MaxSeconds(s) == SecondsOf(MaxTs(s))
  {
    if |s| > 1 {
      MaxCommutesWithSeconds(s[1..]);
      var m := MaxTs(s[1..]);
      if s[0].ts >= m {
        SecondsOfMonotone(m, s[0].ts);
      } else {
        SecondsOfMonotone(s[0].ts, m);
      }
    }
  }

  /** In a ranked sequence the first event holds the largest timestamp. */
  lemma RankedMaxIsFirst(s: seq<QEvent>)
    requires |s| > 0 && SortedDesc(s)
    ensures MaxTs(s) == s[0].ts
    ensures MaxSeconds(s) == SecondsOf(s[0].ts)
  {
    MaxTsIsMaximum(s);
    MaxCommutesWithSeconds(s);
  }

  /** The item ids of retained events, in ranked order. */
  function ItemIds(r: seq<QEvent>): (ids: seq<string>)
    ensures |ids| == |r|
    ensures forall i :: 0 <= i < |r| ==> ids[i] == r[i].itemId
  {
    seq(|r|, i requires 0 <= i < |r| => r[i].itemId)
  }

  /** `LISTAGG`: the strings joined by `sep`. */
  function Join(items: seq<string>, sep: string): (text: string)
    ensures items == [] ==> text == ""
    ensures items != [] ==> |items[0]| <= |text| && text[..|items[0]|] == items[0]
    ensures |items| > 1 ==> |items[0]| + |sep| <= |text| && text[|items[0]|..|items[0]| + |sep|] == sep
  {
    if |items| == 0 then ""
    else if |items| == 1 then items[0]
    else items[0] + sep + Join(items[1..], sep)
  }

  /** Cuts `text` at every occurrence of `c`: the inverse of `Join` with a one-character separator. */
  function Split(text: string, c: char): (parts: seq<string>)
    ensures |parts| >= 1
  {
    if text == [] then [""]
    else if text[0] == c then [""] + Split(text[1..], c)
    else
      var rest := Split(text[1..], c);
      [[text[0]] + rest[0]] + rest[1..]
  }

  lemma {:induction false} SplitNoSeparator(x: string, c: char)
    requires c !in x
    ensures Split(x, c) == [x]
  {
    if x != [] {
      SplitNoSeparator(x[1..], c);
      assert [x[0]] + x[1..] == x;
    }
  }

  lemma {:induction false} SplitAtFirst(x: string, c: char, y: string)
    requires c !in x
    ensures Split(x + [c] + y, c) == [x] + Split(y, c)
  {
    if x == [] {
      assert x + [c] + y == [c] + y;
      assert ([c] + y)[1..] == y;
    } else {
      var t := x + [c] + y;
      assert t[0] == x[0] && t[1..] == x[1..] + [c] + y;
      SplitAtFirst(x[1..], c, y);
      assert [x[0]] + x[1..] == x;
    }
  }

  /** Joining with a separator absent from every part, then splitting, gives back the parts. */
  lemma {:induction false} SplitJoin(items: seq<string>, c: char)
    requires |items| > 0
    requires forall i :: 0 <= i < |items| ==> c !in items[i]
    ensures Split(Join(items, [c]), c) == items
  {
    if |items| == 1 {
      SplitNoSeparator(items[0], c);
    } else {
      SplitJoin(items[1..], c);
      SplitAtFirst(items[0], c, Join(items[1..], [c]));
      assert items == [items[0]] + items[1..];
    }
  }

  /** `CONCAT('last_5_clicks=', LISTAGG(item_id, sep))` over the retained events in ranked order. */
  function Feature(r: seq<QEvent>, sep: string): (f: string)
    ensures |f| >= |FeaturePrefix|
    ensures f[..|FeaturePrefix|] == FeaturePrefix
  {
    FeaturePrefix + Join(ItemIds(r), sep)
  }

  /** Reads the item ids back out of a feature string built with a one-character separator. */
  function ParseFeature(f: string, c: char): Option<seq<string>>
  {
    if |f| >= |FeaturePrefix| && f[..|FeaturePrefix|] == FeaturePrefix
    then Some(Split(f[|FeaturePrefix|..], c))
    else None
  }

  /**
   * The feature string determines the retained item ids: when no item id
   * contains the separator, parsing the feature gives them back in ranked order.
   */
  lemma FeatureRoundTrip(r: seq<QEvent>, c: char)
    requires |r| > 0
    requires forall i :: 0 <= i < |r| ==> c !in r[i].itemId
    ensures ParseFeature(Feature(r, [c]), c) == Some(ItemIds(r))
  {
    var f := Feature(r, [c]);
    assert f[|FeaturePrefix|..] == Join(ItemIds(r), [c]);
    SplitJoin(ItemIds(r), c);
  }

  /** The record published for user `u` from its non-empty retained sequence. */
  function Aggregate(u: int, r: seq<QEvent>, sep: string): (rec: FeatureRecord)
    requires |r| > 0
    ensures rec.user == u
    ensures rec.seconds == SecondsOf(MaxTs(r))
    ensures |rec.feature| >= |FeaturePrefix|
    ensures rec.feature[..|FeaturePrefix|] == FeaturePrefix
    ensures rec.feature[|FeaturePrefix|..] == Join(ItemIds(r), sep)
  {
    MaxCommutesWithSeconds(r);
    FeatureRecord(u, MaxSeconds(r), Feature(r, sep))
  }

  /** The head of a ranked rearrangement of `t` carries `t`'s largest timestamp. */
  lemma RankedHeadIsMax(s: seq<QEvent>, t: seq<QEvent>)
    requires |t| > 0 && SortedDesc(s) && multiset(s) == multiset(t)
    ensures |s| > 0 && s[0].ts == MaxTs(t)
  {
    assert |s| == |multiset(t)| == |t|;
    MaxTsIsMaximum(t);
    var j :| 0 <= j < |t| && t[j].ts == MaxTs(t);
    assert t[j] in multiset(s);
    var k :| 0 <= k < |s| && s[k] == t[j];
    assert s[0].ts >= s[k].ts;
    assert s[0] in multiset(t);
    var i :| 0 <= i < |t| && t[i] == s[0];
    assert t[i].ts <= MaxTs(t);
  }

  /**
   * The seconds value a user's record carries is the largest timestamp of
   * that user's entire qualifying history, divided: truncation to five
   * events never drops the most recent one.
   */
  lemma SecondsFromWholeHistory(h: seq<QEvent>, u: int, sep: string)
    requires UserEvents(h, u) != []
    ensures |Retained(h, u)| > 0
    ensures Aggregate(u, Retained(h, u), sep).seconds == SecondsOf(MaxTs(UserEvents(h, u)))
  {
    var hu := UserEvents(h, u);
    var s := SortDesc(hu);
    var r := Retained(h, u);
    SortDescSorted(hu);
    SortDescPermutes(hu);
    RankedHeadIsMax(s, hu);
    RetainedShape(h, u);
    assert r[0] == s[0];
    RankedMaxIsFirst(r);
  }
}
