/**
  The counting barrier of src/textureLoader.js. One success callback is
  registered per source; each writes its slot of a (sparse) array, bumps a
  shared counter, and the callback that brings the counter to the number of
  sources hands the array to the completion callback. Load events are replayed
  from an arbitrary sequence, which stands for every completion order the
  decoder may choose. The batch is generic in the texture type.
*/
module TextureLoader {

  /** The fixed batch, in import order. */
  const ImageSources: seq<string> := ["/01.webp", "/02.webp", "/03.webp", "/04.webp", "/new.jpg"]

  /** `onLoad` for source `index` delivering `texture`. */
  datatype LoadEvent<T> = LoadEvent(index: int, texture: T)

  /**
    Loader state: the number of sources, the slot array (a map, as a JavaScript
    array written by index is sparse), the counter, and the arrays handed to
    the completion callback so far, as they were at the moment of each call.
  */
  datatype Batch<T> = Batch(count: nat, textures: map<int, T>, loadCount: nat, completions: seq<map<int, T>>)

  /** State right after `loadTextures` registered its callbacks for `n` sources. */
  function Begin<T>(n: nat): Batch<T>
  {
    Batch(n, map[], 0, [])
  }

  /** Every event names one of the batch's sources (each callback captures its own index). */
  predicate InRange<T>(events: seq<LoadEvent<T>>, n: nat)
  {
    forall k :: 0 <= k < |events| ==> 0 <= events[k].index < n
  }

  /** No source reports twice. */
  predicate Distinct<T>(events: seq<LoadEvent<T>>)
  {
    forall j, k :: 0 <= j < k < |events| ==> events[j].index != events[k].index
  }

  /** Each of the `n` sources reports exactly once, in any order. */
  predicate OnceEach<T>(events: seq<LoadEvent<T>>, n: nat)
  {
    |events| == n && InRange(events, n) && Distinct(events)
  }

  /** The indices `0 .. n-1`. */
  function Indices(n: nat): (s: set<int>)
    ensures forall i :: i in s <==> 0 <= i < n
  {
    if n == 0 then {} else Indices(n - 1) + {n - 1}
  }

  /** The set of sources that have reported in `events`. */
  function Reported<T>(events: seq<LoadEvent<T>>): (s: set<int>)
    ensures forall k :: 0 <= k < |events| ==> events[k].index in s
    ensures forall i :: i in s ==> exists k :: 0 <= k < |events| && events[k].index == i
  {
    if events == [] then {} else {events[0].index} + Reported(events[1..])
  }

  /** One success callback: write the slot, count it, complete when the count reaches the batch size. */
  function OnLoad<T>(b: Batch<T>, e: LoadEvent<T>): (r: Batch<T>)
    requires 0 <= e.index < b.count
    ensures r.count == b.count
    ensures r.loadCount == b.loadCount + 1
    ensures e.index in r.textures && r.textures[e.index] == e.texture
    ensures r.textures.Keys == b.textures.Keys + {e.index}
    ensures forall i :: i in b.textures && i != e.index ==> i in r.textures && r.textures[i] == b.textures[i]
    ensures r.loadCount == r.count ==> r.completions == b.completions + [r.textures]
    ensures r.loadCount != r.count ==> r.completions == b.completions
  {
    var textures := b.textures[e.index := e.texture];
    var loadCount := b.loadCount + 1;
    Batch(b.count, textures, loadCount,
          if loadCount == b.count then b.completions + [textures] else b.completions)
  }

  /** Deliver `events` one after the other. */
  function Replay<T>(b: Batch<T>, events: seq<LoadEvent<T>>): (r: Batch<T>)
    requires InRange(events, b.count)
    ensures r.count == b.count
    ensures b.completions <= r.completions
    decreases |events|
  {
    if events == [] then b else Replay(OnLoad(b, events[0]), events[1..])
  }

  /** The counter always equals the number of callbacks received. */
  lemma {:induction false} CounterCountsCallbacks<T>(b: Batch<T>, events: seq<LoadEvent<T>>)
    requires InRange(events, b.count)
    ensures Replay(b, events).loadCount == b.loadCount + |events|
    decreases |events|
  {
    if events != [] {
      CounterCountsCallbacks(OnLoad(b, events[0]), events[1..]);
    }
  }

  /** The completion count is 1 exactly when the counter has reached a non-zero batch size. */
  predicate CompletionsAgree<T>(b: Batch<T>)
  {
    |b.completions| == (if 0 < b.count <= b.loadCount then 1 else 0)
  }

  lemma {:induction false} ReplayKeepsCompletionsAgree<T>(b: Batch<T>, events: seq<LoadEvent<T>>)
    requires InRange(events, b.count) && CompletionsAgree(b)
    ensures CompletionsAgree(Replay(b, events))
    decreases |events|
  {
    if events != [] {
      ReplayKeepsCompletionsAgree(OnLoad(b, events[0]), events[1..]);
    }
  }

  /**
    Whatever the delivery (duplicates and missing sources included), the
    completion callback runs at most once, and it has run exactly when at least
    `n` callbacks have arrived; in particular never while the counter is below
    `n`. With no sources it never runs.
  */
  lemma CompletesOnlyAtCount<T>(n: nat, events: seq<LoadEvent<T>>)
    requires InRange(events, n)
    ensures |Replay(Begin<T>(n), events).completions| <= 1
    ensures Replay(Begin<T>(n), events).completions != [] <==> 0 < n <= |events|
    ensures Replay(Begin<T>(n), events).loadCount < n ==> Replay(Begin<T>(n), events).completions == []
  {
    ReplayKeepsCompletionsAgree(Begin<T>(n), events);
    CounterCountsCallbacks(Begin<T>(n), events);
  }

  /** The last callback of a batch that ends exactly at the count hands over the final slot array. */
  lemma {:induction false} LastCallbackCompletes<T>(b: Batch<T>, events: seq<LoadEvent<T>>)
    requires InRange(events, b.count) && events != []
    requires b.loadCount + |events| == b.count
    ensures Replay(b, events).completions == b.completions + [Replay(b, events).textures]
    decreases |events|
  {
    var b' := OnLoad(b, events[0]);
    if |events| > 1 {
      LastCallbackCompletes(b', events[1..]);
    }
  }

  /**
    The slot array after a replay: its filled slots are the old ones plus one
    per source that reported, and each reported slot holds the texture of the
    last event for that source.
  */
  lemma {:induction false} SlotsFollowEvents<T>(b: Batch<T>, events: seq<LoadEvent<T>>)
    requires InRange(events, b.count)
    ensures Replay(b, events).textures.Keys == b.textures.Keys + Reported(events)
    ensures forall i :: i in b.textures && i !in Reported(events) ==> Replay(b, events).textures[i] == b.textures[i]
    ensures forall k :: 0 <= k < |events| && (forall j :: k < j < |events| ==> events[j].index != events[k].index) ==>
              Replay(b, events).textures[events[k].index] == events[k].texture
    decreases |events|
  {
    if events != [] {
      var b' := OnLoad(b, events[0]);
      var rest := events[1..];
      SlotsFollowEvents(b', rest);
      assert b'.textures.Keys == b.textures.Keys + {events[0].index};
      forall k | 0 <= k < |events| && (forall j :: k < j < |events| ==> events[j].index != events[k].index)
        ensures Replay(b, events).textures[events[k].index] == events[k].texture
      {
        if k > 0 {
          assert rest[k - 1] == events[k];
          forall j | k - 1 < j < |rest| ensures rest[j].index != rest[k - 1].index {
            assert rest[j] == events[j + 1];
          }
        } else {
          assert events[0].index !in Reported(rest);
        }
      }
    }
  }

  /** `|Indices(n)| == n`. */
  lemma {:induction false} IndicesSize(n: nat)
    ensures |Indices(n)| == n
  {
    if n > 0 {
      assert Indices(n) == Indices(n - 1) + {n - 1};
      IndicesSize(n - 1);
    }
  }

  /** Distinct events report as many sources as there are events. */
  lemma {:induction false} ReportedSize<T>(events: seq<LoadEvent<T>>)
    requires Distinct(events)
    ensures |Reported(events)| == |events|
  {
    if events != [] {
      var rest := events[1..];
      assert Distinct(rest) by {
        forall j, k | 0 <= j < k < |rest| ensures rest[j].index != rest[k].index {
          assert rest[j] == events[j + 1] && rest[k] == events[k + 1];
        }
      }
      ReportedSize(rest);
      assert events[0].index !in Reported(rest);
    }
  }

  /** A subset has at most as many elements, and one of equal size is the whole set. */
  lemma SubsetSize(a: set<int>, b: set<int>)
    requires a <= b
    ensures |a| <= |b|
    ensures |a| == |b| ==> a == b
  {
    assert b == a + (b - a);
    assert a * (b - a) == {};
    if |a| == |b| {
      assert |b - a| == 0;
    }
  }

  /** When each source reports once, every source has reported. */
  lemma OnceEachCoversAll<T>(events: seq<LoadEvent<T>>, n: nat)
    requires OnceEach(events, n)
    ensures Reported(events) == Indices(n)
  {
    ReportedSize(events);
    IndicesSize(n);
    SubsetSize(Reported(events), Indices(n));
  }

  /**
    Exactly once, in index order: if each of the `n > 0` sources reports once,
    in any order, the completion callback runs exactly once, with every slot
    filled and slot `i` holding the texture source `i` reported.
  */
  lemma ExactlyOnceInIndexOrder<T>(n: nat, events: seq<LoadEvent<T>>)
    requires n > 0 && OnceEach(events, n)
    ensures |Replay(Begin<T>(n), events).completions| == 1
    ensures Replay(Begin<T>(n), events).completions[0].Keys == Indices(n)
    ensures forall k :: 0 <= k < n ==>
              Replay(Begin<T>(n), events).completions[0][events[k].index] == events[k].texture
  {
    var b := Begin<T>(n);
    LastCallbackCompletes(b, events);
    SlotsFollowEvents(b, events);
    OnceEachCoversAll(events, n);
  }

  /**
    A source that never reports stalls the batch: only success callbacks are
    registered, so with each other source reporting at most once the
    completion callback is never invoked.
  */
  lemma MissingSourceStalls<T>(n: nat, events: seq<LoadEvent<T>>, missing: int)
    requires InRange(events, n) && Distinct(events)
    requires 0 <= missing < n && missing !in Reported(events)
    ensures Replay(Begin<T>(n), events).completions == []
  {
    ReportedSize(events);
    IndicesSize(n);
    SubsetSize(Reported(events), Indices(n) - {missing});
    CompletesOnlyAtCount(n, events);
  }

  /** The fixed batch of five sources completes once, fully populated, whatever the order. */
  lemma FixedBatchCompletesOnce<T>(events: seq<LoadEvent<T>>)
    requires OnceEach(events, |ImageSources|)
    ensures |ImageSources| == 5
    ensures |Replay(Begin<T>(|ImageSources|), events).completions| == 1
    ensures Replay(Begin<T>(|ImageSources|), events).completions[0].Keys == Indices(5)
  {
    ExactlyOnceInIndexOrder(|ImageSources|, events);
  }
}
