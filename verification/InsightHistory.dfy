/**
 * The dashboard's "Recent AI Insights" history: `aiInsights` holds every
 * insight handed to `onInsightReceived`, newest first, and the panel shows
 * its first three entries.
 */
module InsightHistory {
  import opened JsValues

  /** How many entries the panel shows. */
  const RecentCount := 3

  function Min(a: int, b: int): (m: int)
    ensures m <= a && m <= b && (m == a || m == b)
  {
    if a < b then a else b
  }

  /** `aiInsights.slice(0, 3)`: the newest `min(3, |history|)` entries, in
      history order. */
  function Recent<T>(history: seq<T>): (view: seq<T>)
    ensures |view| == Min(RecentCount, |history|)
    ensures forall k :: 0 <= k < |view| ==> view[k] == history[k]
  {
    if |history| <= RecentCount then history else history[..RecentCount]
  }

  /** The history after the callback received `arrivals`, oldest arrival first. */
  function ReceiveAll<T>(history: seq<T>, arrivals: seq<T>): (r: seq<T>)
    ensures |r| == |arrivals| + |history|
    decreases |arrivals|
  {
    if arrivals == [] then history
    else ReceiveAll([arrivals[0]] + history, arrivals[1..])
  }

  /** The dashboard scene's insight state. */
  class Dashboard {
    var aiInsights: seq<JsValue>

    constructor ()
      ensures aiInsights == []
    {
      aiInsights := [];
    }

    /** `setAiInsights([insight, ...aiInsights])`: the new insight goes in
        front, the earlier ones follow in their order, nothing is dropped or
        merged. */
    method OnInsightReceived(insight: JsValue)
      modifies this
      ensures aiInsights == [insight] + old(aiInsights)
    {
      aiInsights := [insight] + aiInsights;
    }

    /** What the scene renders from the history: whether the section is
        shown, and the entries listed in it. Rendering changes nothing. */
    method Render() returns (visible: bool, shown: seq<JsValue>)
      ensures visible <==> aiInsights != []
      ensures shown == Recent(aiInsights)
      ensures |shown| <= RecentCount && (visible <==> shown != [])
    {
      visible := |aiInsights| > 0;
      shown := Recent(aiInsights);
    }
  }

  /** Receiving one more insight: it heads the view, followed by the former
      view less its oldest entry when the view was full. */
  lemma RecentAfterReceive<T>(history: seq<T>, x: T)
    ensures Recent([x] + history) == ([x] + Recent(history))[..Min(RecentCount, |history| + 1)]
  {
    var l := Recent([x] + history);
    var r := ([x] + Recent(history))[..Min(RecentCount, |history| + 1)];
    assert |l| == |r|;
    forall k | 0 <= k < |l| ensures l[k] == r[k] {
      if k > 0 { assert r[k] == Recent(history)[k - 1]; }
    }
  }

  /** Successive insights are shown newest first, and nothing is
      deduplicated: receiving `a` then `b` puts `b`, `a` at the head of the
      history and of the view even when `a == b`. */
  lemma TwoArrivalsNewestFirst<T>(history: seq<T>, a: T, b: T)
    ensures ReceiveAll(history, [a, b]) == [b, a] + history
    ensures Recent(ReceiveAll(history, [a, b]))[..2] == [b, a]
    ensures |ReceiveAll(history, [a, b])| == |history| + 2
  {
    assert [a, b][1..] == [b];
    assert [b][1..] == [];
    assert ReceiveAll(history, [a, b]) == ReceiveAll([a] + history, [b]);
    assert ReceiveAll([a] + history, [b]) == ReceiveAll([b] + ([a] + history), []);
    assert [b] + ([a] + history) == [b, a] + history;
  }

  /** After any run of arrivals the history is the arrivals in reverse order
      followed by what was there before. */
  lemma {:induction false} ReceiveAllPrepends<T>(history: seq<T>, arrivals: seq<T>)
    ensures forall k :: 0 <= k < |arrivals| ==>
      ReceiveAll(history, arrivals)[k] == arrivals[|arrivals| - 1 - k]
    ensures ReceiveAll(history, arrivals)[|arrivals|..] == history
    decreases |arrivals|
  {
    if arrivals != [] {
      var rest := arrivals[1..];
      ReceiveAllPrepends([arrivals[0]] + history, rest);
      var h := ReceiveAll([arrivals[0]] + history, rest);
      assert h[|rest|..] == [arrivals[0]] + history;
      assert h[|arrivals|..] == history by {
        assert h[|arrivals|..] == h[|rest|..][1..];
      }
      forall k | 0 <= k < |arrivals|
        ensures h[k] == arrivals[|arrivals| - 1 - k]
      {
        if k < |rest| {
          assert h[k] == rest[|rest| - 1 - k];
        } else {
          assert h[k] == h[|rest|..][0];
        }
      }
    }
  }

  /** One more arrival after a run is exactly one more
      `Dashboard.OnInsightReceived`: it goes in front of the history the run
      left. So `ReceiveAll(h, arrivals)` is the history after calling
      `OnInsightReceived` once per arrival, in order, starting from `h`. */
  lemma {:induction false} ReceiveAllThenOne<T>(history: seq<T>, arrivals: seq<T>, x: T)
    ensures ReceiveAll(history, arrivals + [x]) == [x] + ReceiveAll(history, arrivals)
    decreases |arrivals|
  {
    if arrivals == [] {
      assert [] + [x] == [x];
      assert [x][1..] == [];
    } else {
      assert (arrivals + [x])[0] == arrivals[0];
      assert (arrivals + [x])[1..] == arrivals[1..] + [x];
      ReceiveAllThenOne([arrivals[0]] + history, arrivals[1..], x);
    }
  }

  /** The panel always shows the latest arrivals, newest first. */
  lemma RecentShowsLatest<T>(history: seq<T>, arrivals: seq<T>, k: nat)
    requires k < Min(RecentCount, |arrivals|)
    ensures Recent(ReceiveAll(history, arrivals))[k] == arrivals[|arrivals| - 1 - k]
  {
    ReceiveAllPrepends(history, arrivals);
  }
}
