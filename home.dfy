/**
 * The storefront home page (Frontend/src/pages/Home.jsx): the `useToasts` queue, the
 * trending list, and the banner carousel's automatic slide index.
 */
module Home {
  import opened Wrappers
  import opened Listing
  import opened Values
  import Display

  // ------------------------------------------------------------------ toasts

  datatype Toast = Toast(id: int, title: string, description: string)

  /** Defaults of `showToast(title, description = "", ttl = 3500)`. */
  const DefaultDescription: string := ""
  const DefaultTtl: int := 3500

  /** Newest first: every toast has a larger id than every toast after it. */
  predicate IdsDescending(ts: seq<Toast>)
  {
    forall i, j :: 0 <= i < j < |ts| ==> ts[i].id > ts[j].id
  }

  /** `toasts.filter((t) => t.id !== id)`. */
  function Without(ts: seq<Toast>, id: int): (r: seq<Toast>)
    ensures forall t :: t in r <==> t in ts && t.id != id
    ensures IsSubsequence(r, ts)
    ensures |r| == Count(ts, (t: Toast) => t.id != id)
  {
    Filter(ts, (t: Toast) => t.id != id)
  }

  /** Removing toasts keeps the newest-first order of the rest. */
  lemma {:induction false} FilterKeepsDescending(ts: seq<Toast>, keep: Toast -> bool)
    requires IdsDescending(ts)
    ensures IdsDescending(Filter(ts, keep))
    decreases |ts|
  {
    if ts != [] {
      TailBelowHead(ts);
      FilterKeepsDescending(ts[1..], keep);
      if keep(ts[0]) {
        var rest := Filter(ts[1..], keep);
        assert forall t :: t in rest ==> t in ts[1..];
        ConsDescending(ts[0], rest);
      }
    }
  }

  /** A toast newer than every toast of a newest-first list can go in front of it. */
  lemma ConsDescending(t: Toast, rest: seq<Toast>)
    requires IdsDescending(rest) && forall u :: u in rest ==> u.id < t.id
    ensures IdsDescending([t] + rest)
  {
    var r := [t] + rest;
    forall i, j | 0 <= i < j < |r| ensures r[i].id > r[j].id {
      assert r[j] == rest[j - 1] && rest[j - 1] in rest;
      if i > 0 {
        assert r[i] == rest[i - 1];
      }
    }
  }

  /** A toast that is shown and then removed leaves the queue as it was. */
  lemma {:induction false} ShowThenRemove(ts: seq<Toast>, t: Toast)
    requires forall u :: u in ts ==> u.id < t.id
    ensures Without([t] + ts, t.id) == ts
  {
    var keep := (u: Toast) => u.id != t.id;
    assert ([t] + ts)[1..] == ts;
    FilterAll(ts, keep);
  }

  /**
   * The state of `useToasts`: the list, the `idRef` counter, and the ids whose removal
   * a `setTimeout` has been scheduled for (the timer itself is not modelled; when it
   * fires it performs `Remove` of its id).
   */
  class ToastQueue {
    var toasts: seq<Toast>
    var nextId: int
    var scheduled: seq<int>

    /** Every id was handed out by the counter, and the list is newest first. */
    ghost predicate Valid()
      reads this
    {
      nextId >= 1
      && (forall t :: t in toasts ==> 1 <= t.id < nextId)
      && IdsDescending(toasts)
    }

    constructor ()
      ensures Valid()
      ensures toasts == [] && nextId == 1 && scheduled == []
    {
      toasts := [];
      nextId := 1;
      scheduled := [];
    }

    /**
     * `showToast(title, description, ttl)`, where a missing argument takes its default:
     * the toast gets the next id, goes to the front, and a positive ttl schedules its removal.
     */
    method Show(title: string, description: Option<string>, ttl: Option<int>) returns (id: int)
      requires Valid()
      modifies this
      ensures Valid()
      ensures id == old(nextId) && nextId == id + 1
      ensures forall t :: t in old(toasts) ==> t.id < id
      ensures toasts == [Toast(id, title, if description.Some? then description.value else DefaultDescription)] + old(toasts)
      ensures (if ttl.Some? then ttl.value else DefaultTtl) > 0 ==> scheduled == old(scheduled) + [id]
      ensures (if ttl.Some? then ttl.value else DefaultTtl) <= 0 ==> scheduled == old(scheduled)
    {
      id := nextId;
      nextId := nextId + 1;
      var toast := Toast(id, title, if description.Some? then description.value else DefaultDescription);
      toasts := [toast] + toasts;
      var delay := if ttl.Some? then ttl.value else DefaultTtl;
      if delay > 0 {
        scheduled := scheduled + [id];
      }
    }

    /** `removeToast(id)`, and the body of every scheduled timer: drops exactly the toasts with that id. */
    method Remove(id: int)
      requires Valid()
      modifies this
      ensures Valid()
      ensures toasts == Without(old(toasts), id)
      ensures nextId == old(nextId) && scheduled == old(scheduled)
    {
      FilterKeepsDescending(toasts, (t: Toast) => t.id != id);
      toasts := Without(toasts, id);
    }
  }

  /** Ids are unique, so removing one id removes at most one toast. */
  lemma RemoveDropsOne(ts: seq<Toast>, id: int)
    requires IdsDescending(ts)
    ensures |Without(ts, id)| >= |ts| - 1
  {
    FilterDropsAtMostOne(ts, id);
  }

  lemma {:induction false} FilterDropsAtMostOne(ts: seq<Toast>, id: int)
    requires IdsDescending(ts)
    ensures |Without(ts, id)| >= |ts| - 1
    ensures (forall t :: t in ts ==> t.id != id) ==> Without(ts, id) == ts
    decreases |ts|
  {
    if ts != [] {
      var tail := ts[1..];
      TailBelowHead(ts);
      FilterDropsAtMostOne(tail, id);
      if ts[0].id == id {
        assert Without(ts, id) == Without(tail, id);
      } else {
        assert Without(ts, id) == [ts[0]] + Without(tail, id);
        assert ts == [ts[0]] + tail;
      }
    }
  }

  /** The rest of a newest-first list is newest first, and every id in it is below the head's. */
  lemma TailBelowHead(ts: seq<Toast>)
    requires IdsDescending(ts) && ts != []
    ensures IdsDescending(ts[1..])
    ensures forall t :: t in ts[1..] ==> t.id < ts[0].id
  {
    var tail := ts[1..];
    assert forall i :: 0 <= i < |tail| ==> tail[i] == ts[i + 1];
    forall t | t in tail ensures t.id < ts[0].id {
      var k :| 0 <= k < |tail| && tail[k] == t;
      assert ts[k + 1] == t;
    }
  }

  // ---------------------------------------------------------------- trending

  /** The field of a product the home page reads: `isTrending`, of any JSON type. */
  datatype Listed = Listed(id: string, isTrending: Value)

  /** What `GET /api/products` answered: nothing, an array, or some other JSON value. */
  datatype Body = NoData | ArrayData(items: seq<Listed>) | OtherData

  /**
   * `res.data?.filter((p) => p.isTrending) || []`. `None` means the expression throws (a
   * body without `filter`), so the handler's catch shows "Couldn't load trending products"
   * and the list keeps its previous value.
   */
  function Trending(body: Body): (r: Option<seq<Listed>>)
    ensures body.NoData? ==> r == Some([])
    ensures body.OtherData? ==> r.None?
    ensures body.ArrayData? ==> r.Some? && IsSubsequence(r.value, body.items)
    ensures body.ArrayData? ==> forall p :: p in r.value <==> p in body.items && Truthy(p.isTrending)
    ensures body.ArrayData? ==> |r.value| == Count(body.items, (p: Listed) => Truthy(p.isTrending))
    ensures body.ArrayData? ==>
              forall p :: multiset(r.value)[p] == if Truthy(p.isTrending) then multiset(body.items)[p] else 0
  {
    match body
    case NoData => Some([])
    case ArrayData(items) =>
      FilterMultiplicity(items, (p: Listed) => Truthy(p.isTrending));
      Some(Filter(items, (p: Listed) => Truthy(p.isTrending)))
    case OtherData => None
  }

  /** Loading the trending list again from its own result changes nothing. */
  lemma TrendingIdempotent(items: seq<Listed>)
    ensures Trending(ArrayData(Trending(ArrayData(items)).value)) == Trending(ArrayData(items))
  {
    var t := Trending(ArrayData(items)).value;
    FilterAll(t, (p: Listed) => Truthy(p.isTrending));
  }

  // ------------------------------------------------------------------ banner

  /** `bannerImages` holds two images. */
  const BannerCount: int := 2

  /** One tick of the interval: `(s + 1) % bannerImages.length`. */
  function NextSlide(s: int, n: int): (r: int)
    requires n > 0
    ensures 0 <= r < n
  {
    (s + 1) % n
  }

  /** Within range, a tick is the carousel's right arrow. */
  lemma NextSlideIsNext(s: int, n: int)
    requires 0 <= s < n
    ensures NextSlide(s, n) == Display.Next(s, n)
  {
    Display.CarouselWraps(s, n);
  }

  /** The slide index after `k` ticks from the initial 0. */
  function SlideAfter(k: nat, n: int): (r: int)
    requires n > 0
    ensures 0 <= r < n
  {
    if k == 0 then 0 else NextSlide(SlideAfter(k - 1, n), n)
  }

  /** A tick from a slide in range moves one on, wrapping from the last to the first. */
  lemma NextSlideSteps(s: int, n: int)
    requires 0 <= s < n
    ensures NextSlide(s, n) == if s == n - 1 then 0 else s + 1
  {
  }

  /** The first `n` ticks show the images in order. */
  lemma {:induction false} SlideAfterCounts(k: nat, n: int)
    requires 0 <= k < n
    ensures SlideAfter(k, n) == k
  {
    if k > 0 {
      SlideAfterCounts(k - 1, n);
      NextSlideSteps(k - 1, n);
    }
  }

  /** After `k` ticks the banner shows the same image as after `k + n`: it cycles with period `n`. */
  lemma {:induction false} SlideAfterCycles(k: nat, n: int)
    requires n > 0
    ensures SlideAfter(k + n, n) == SlideAfter(k, n)
  {
    if k == 0 {
      SlideAfterCounts(n - 1, n);
      NextSlideSteps(n - 1, n);
    } else {
      SlideAfterCycles(k - 1, n);
      assert SlideAfter(k + n, n) == NextSlide(SlideAfter(k - 1 + n, n), n);
    }
  }
}
