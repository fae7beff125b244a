/** What every provider hands to the backup service: the image records a
    listing yields, and the `limit` argument shared by all listings. */
module Images {
  import opened Wrappers

  /** `ImageInfo`: where an image lives, its file name and what the host
      reports about it. Metadata values may be None. */
  datatype ImageInfo = ImageInfo(
    url: string,
    filename: string,
    size: Option<int>,
    createdAt: Option<string>,
    metadata: map<string, Option<string>>)

  /** A listing consumed to the end: the images yielded, in order, and
      whether the generator raised after the last of them. */
  datatype Enumeration = Enumeration(items: seq<ImageInfo>, raised: bool)

  /** `if limit`: None and 0 place no bound. */
  predicate Bounded(limit: Option<int>)
  {
    limit.Some? && limit.value != 0
  }

  /** `limit and count >= limit`, the test every listing loop runs before
      yielding. A negative limit is reached at once. */
  predicate Reached(limit: Option<int>, count: int)
  {
    Bounded(limit) && count >= limit.value
  }

  /** The first `n` elements, none when `n` is not positive. */
  function Take<T>(xs: seq<T>, n: int): (r: seq<T>)
    ensures |r| == if n <= 0 then 0 else if n < |xs| then n else |xs|
    ensures r == xs[..|r|]
  {
    if n <= 0 then [] else if n < |xs| then xs[..n] else xs
  }

  /** What a listing under `limit` keeps of the unbounded stream. */
  function Bound<T>(xs: seq<T>, limit: Option<int>): (r: seq<T>)
    ensures !Bounded(limit) ==> r == xs
    ensures Bounded(limit) ==> |r| <= limit.value || (limit.value < 0 && r == [])
    ensures |r| <= |xs| && r == xs[..|r|]
  {
    if Bounded(limit) then Take(xs, limit.value) else xs
  }

  /** Taking across a concatenation. */
  lemma TakeAppend<T>(a: seq<T>, b: seq<T>, n: int)
    ensures Take(a + b, n) == if n <= |a| then Take(a, n) else a + Take(b, n - |a|)
  {
    if n > |a| {
      assert Take(a + b, n) == a + Take(b, n - |a|);
    } else if n > 0 {
      assert (a + b)[..n] == a[..n];
    }
  }
}
