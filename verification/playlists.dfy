/** The playlist part of the handler: the search parameters sent to the music
    catalogue, and the walk over the randomly sampled search results that keeps
    the well-formed playlists. */
module Playlists {
  import opened Wrappers
  import opened Text

  /** The query parameters of the playlist search. */
  datatype Params = Params(q: string, kind: string, limit: nat, market: Option<string>)

  const SearchLimit: nat := 10

  /** The search always asks for up to ten playlists matching the mood; the market
      filter is added exactly when the scope is "regional" and the weather reply
      named a country, and then it is that country. */
  function SearchParams(mood: string, scope: string, country: Option<string>): (p: Params)
    ensures p.q == mood && p.kind == "playlist" && p.limit == SearchLimit
    ensures p.market.Some? <==> scope == "regional" && Present(country)
    ensures p.market.Some? ==> p.market == country && p.market.value != ""
  {
    var params := Params(mood, "playlist", SearchLimit, None);
    if scope == "regional" && Present(country) then params.(market := country) else params
  }

  /** One entry of the search reply's `items` list: JSON null, a value that is not
      an object, or an object with (possibly absent) `name` and
      `external_urls.spotify` strings. */
  datatype Item = Null | NotObject | Object(name: Option<string>, spotifyUrl: Option<string>)

  /** A playlist in the response. */
  datatype Playlist = Playlist(name: string, url: string)

  /** An item contributes a playlist exactly when it is an object with a non-empty
      name and a non-empty url. */
  predicate WellFormed(item: Item) {
    item.Object? && Present(item.name) && Present(item.spotifyUrl)
  }

  function ToPlaylist(item: Item): Playlist
    requires WellFormed(item)
  {
    Playlist(item.name.value, item.spotifyUrl.value)
  }

  /** What one item adds to the results: its playlist, or nothing. */
  function Keep(item: Item): (r: seq<Playlist>)
    ensures |r| <= 1
    ensures r != [] <==> WellFormed(item)
    ensures r != [] ==> r[0] == ToPlaylist(item)
  {
    if WellFormed(item) then [ToPlaylist(item)] else []
  }

  /** The playlists of the well-formed items of `sample`, in sample order. */
  function Filtered(sample: seq<Item>): (r: seq<Playlist>)
    ensures |r| <= |sample|
  {
    if sample == [] then [] else Filtered(sample[..|sample| - 1]) + Keep(sample[|sample| - 1])
  }

  predicate StrictlyIncreasing(idx: seq<nat>) {
    forall j, k :: 0 <= j < k < |idx| ==> idx[j] < idx[k]
  }

  /** The results are exactly the well-formed items of the sample, in sample order:
      `idx` gives the sample position of each result; it is strictly increasing,
      every position it names holds a well-formed item, and every well-formed item
      of the sample is named. */
  lemma {:induction false} FilteredSelects(sample: seq<Item>) returns (idx: seq<nat>)
    ensures |idx| == |Filtered(sample)| && StrictlyIncreasing(idx)
    ensures forall k :: 0 <= k < |idx| ==>
      (idx[k] < |sample| && WellFormed(sample[idx[k]]) && Filtered(sample)[k] == ToPlaylist(sample[idx[k]]))
    ensures forall i :: 0 <= i < |sample| && WellFormed(sample[i]) ==> i in idx
  {
    if sample == [] {
      idx := [];
    } else {
      var n := |sample| - 1;
      var init := sample[..n];
      var prev := FilteredSelects(init);
      var out := Filtered(sample);
      assert out == Filtered(init) + Keep(sample[n]);
      idx := prev + if WellFormed(sample[n]) then [n] else [];
      forall k | 0 <= k < |idx|
        ensures idx[k] < |sample| && WellFormed(sample[idx[k]]) && out[k] == ToPlaylist(sample[idx[k]])
      {
        if k < |prev| {
          assert idx[k] == prev[k] && init[prev[k]] == sample[prev[k]];
        }
      }
      forall i | 0 <= i < |sample| && WellFormed(sample[i])
        ensures i in idx
      {
        if i < n {
          assert init[i] == sample[i];
          assert i in prev;
        }
      }
    }
  }

  /** Over a sample of well-formed items only, nothing is dropped. */
  lemma {:induction false} FilteredKeepsAllWellFormed(sample: seq<Item>)
    requires forall i :: 0 <= i < |sample| ==> WellFormed(sample[i])
    ensures |Filtered(sample)| == |sample|
  {
    if sample != [] {
      FilteredKeepsAllWellFormed(sample[..|sample| - 1]);
    }
  }

  /** The walk over the sample (the handler's `for p in sample` loop): entries that are
      null or not objects are skipped, and a playlist is appended only when both its
      name and its url are non-empty. */
  method CollectPlaylists(sample: seq<Item>) returns (results: seq<Playlist>)
    ensures results == Filtered(sample)
  {
    results := [];
    for i := 0 to |sample|
      invariant results == Filtered(sample[..i])
    {
      assert sample[..i + 1][..i] == sample[..i];
      var p := sample[i];
      if p.Null? || p.NotObject? {
        continue;
      }
      var name := p.name;
      var url := p.spotifyUrl;
      if Present(name) && Present(url) {
        results := results + [Playlist(name.value, url.value)];
      }
    }
    assert sample[..|sample|] == sample;
  }

  /** What `random.sample(items, k=min(3, len(items)))` may return, given as the list
      of positions it picked: as many positions as the smaller of 3 and the number of
      items, each a position of `items`, no position twice. */
  predicate IsSampleChoice(picks: seq<nat>, count: nat) {
    |picks| == (if count < 3 then count else 3) && DistinctPositions(picks, count)
  }

  /** Every position is below `count` and none occurs twice. */
  predicate DistinctPositions(picks: seq<nat>, count: nat) {
    && (forall k :: 0 <= k < |picks| ==> picks[k] < count)
    && (forall j, k :: 0 <= j < k < |picks| ==> picks[j] != picks[k])
  }

  /** The items at positions `picks`, in that order. */
  function Picked(items: seq<Item>, picks: seq<nat>): (s: seq<Item>)
    requires forall k :: 0 <= k < |picks| ==> picks[k] < |items|
    ensures |s| == |picks| && forall k :: 0 <= k < |picks| ==> s[k] == items[picks[k]]
  {
    seq(|picks|, k requires 0 <= k < |picks| => items[picks[k]])
  }

  /** Items picked at distinct positions form a sub-multiset of the items. */
  lemma {:induction false} PickedWithinItems(items: seq<Item>, picks: seq<nat>)
    requires DistinctPositions(picks, |items|)
    ensures multiset(Picked(items, picks)) <= multiset(items)
    decreases |picks|
  {
    if picks != [] {
      var n := |picks| - 1;
      var p := picks[n];
      var rest := items[..p] + items[p + 1..];
      var shifted := seq(n, k requires 0 <= k < n => if picks[k] <= p then picks[k] else picks[k] - 1);
      forall k | 0 <= k < n
        ensures shifted[k] < |rest| && rest[shifted[k]] == items[picks[k]]
      {
        assert picks[k] != p;
      }
      forall j, k | 0 <= j < k < n
        ensures shifted[j] != shifted[k]
      {
        assert picks[j] != p && picks[k] != p && picks[j] != picks[k];
      }
      PickedWithinItems(rest, shifted);
      assert Picked(items, picks) == Picked(rest, shifted) + [items[p]];
      assert items == items[..p] + [items[p]] + items[p + 1..];
    }
  }

  /** The sample `random.sample` returns for the positions it picked: min(3, number
      of items) items, each taken from `items` no more often than it occurs there,
      in the order picked. */
  function Sample(items: seq<Item>, picks: seq<nat>): (s: seq<Item>)
    requires IsSampleChoice(picks, |items|)
    ensures |s| == (if |items| < 3 then |items| else 3)
    ensures multiset(s) <= multiset(items)
    ensures forall k :: 0 <= k < |picks| ==> s[k] == items[picks[k]]
  {
    PickedWithinItems(items, picks);
    Picked(items, picks)
  }

  /** The reply of the playlist search: its HTTP status and the `playlists.items`
      list of its body (empty when the body has none). */
  datatype SearchReply = SearchReply(status: int, items: seq<Item>)

  /** The playlists of the response: none without a token, on a failed search or
      for an empty item list; otherwise the well-formed items of the sample, at
      most three. */
  function SpotifyResults(token: Option<string>, reply: SearchReply, picks: seq<nat>): (r: seq<Playlist>)
    requires IsSampleChoice(picks, |reply.items|)
    ensures |r| <= 3
  {
    if Present(token) && reply.status == 200 && reply.items != [] then
      Filtered(Sample(reply.items, picks))
    else
      []
  }

  /** Without a token, after a failed search or for an empty item list, the response
      holds no playlist: these failures are never errors of the request. */
  lemma NoSearchNoPlaylists(token: Option<string>, reply: SearchReply, picks: seq<nat>)
    requires IsSampleChoice(picks, |reply.items|)
    requires !Present(token) || reply.status != 200 || reply.items == []
    ensures SpotifyResults(token, reply, picks) == []
  {
  }

  /** At most three playlists are returned, each drawn from a distinct well-formed
      item of the search reply, in the order the sample picked them: `order` gives
      the increasing positions in the sample of the items used. */
  lemma ResultsDrawnFromItems(token: Option<string>, reply: SearchReply, picks: seq<nat>)
    returns (from: seq<nat>, order: seq<nat>)
    requires IsSampleChoice(picks, |reply.items|)
    ensures var r := SpotifyResults(token, reply, picks);
      && |r| <= 3 && |from| == |r| && |order| == |r| && StrictlyIncreasing(order)
      && (forall k :: 0 <= k < |r| ==>
            (order[k] < |picks| && from[k] == picks[order[k]] &&
             from[k] < |reply.items| && WellFormed(reply.items[from[k]]) &&
             r[k] == ToPlaylist(reply.items[from[k]]) && r[k].name != "" && r[k].url != ""))
      && (forall j, k :: 0 <= j < k < |from| ==> from[j] != from[k])
  {
    if Present(token) && reply.status == 200 && reply.items != [] {
      var sample := Sample(reply.items, picks);
      order := FilteredSelects(sample);
      from := seq(|order|, k requires 0 <= k < |order| => picks[order[k]]);
    } else {
      from, order := [], [];
    }
  }

  /** When every item is well-formed, the response holds as many playlists as were
      sampled: three when the reply has three or more items. */
  lemma AllWellFormedFillsSample(token: Option<string>, reply: SearchReply, picks: seq<nat>)
    requires IsSampleChoice(picks, |reply.items|)
    requires Present(token) && reply.status == 200
    requires forall i :: 0 <= i < |reply.items| ==> WellFormed(reply.items[i])
    ensures |SpotifyResults(token, reply, picks)| == (if |reply.items| < 3 then |reply.items| else 3)
  {
    if reply.items != [] {
      FilteredKeepsAllWellFormed(Sample(reply.items, picks));
    }
  }

  /** Sampling happens before filtering, so a reply with three well-formed items among
      four can yield only two playlists: the sample may include the null entry. */
  lemma SampleBeforeFilterMayDropPlaylists()
    ensures var good := Object(Some("Focus"), Some("https://open.spotify.com/playlist/1"));
      var reply := SearchReply(200, [Null, good, good, good]);
      && IsSampleChoice([0, 1, 2], |reply.items|)
      && |SpotifyResults(Some("token"), reply, [0, 1, 2])| == 2
  {
    var good := Object(Some("Focus"), Some("https://open.spotify.com/playlist/1"));
    var sample := Sample([Null, good, good, good], [0, 1, 2]);
    assert sample == [Null, good, good];
    assert sample[..2] == [Null, good] && sample[..2][..1] == [Null] && [Null][..0] == [];
    assert Filtered([Null]) == [];
    assert Filtered([Null, good]) == [ToPlaylist(good)];
    assert Filtered(sample) == [ToPlaylist(good), ToPlaylist(good)];
  }
}
