/** The Alibaba Cloud OSS provider of providers/oss.py: the image filter and
    limit over the bucket's object stream, the image count, and the object
    key a download asks for. The SDK is outside the model: the object
    iterator is the sequence of summaries it yields, plus whether it raises
    when asked for the next one after them. */
module Oss {
  import opened Wrappers
  import opened Paths
  import opened Images

  /** `obj.last_modified` as the listing meets it: falsy, so no creation
      time is recorded; a value whose `isoformat()` renders as `iso`; or a
      value without an `isoformat` method, on which the call raises. The
      SDK documents a Unix timestamp (an `int`) here, which is the last
      case whenever it is non-zero. */
  datatype Timestamp = Unset | Datetime(iso: string) | NoIsoformat

  /** An entry of `oss2.ObjectIterator`. */
  datatype ObjectSummary = ObjectSummary(
    key: string,
    size: int,
    lastModified: Timestamp,
    etag: Option<string>,
    storageClass: Option<string>)

  /** Building the record of this object raises: `isoformat()` is called
      on a value that does not have it. */
  predicate RecordRaises(o: ObjectSummary)
  {
    o.lastModified.NoIsoformat?
  }

  /** The bucket coordinates from the provider's configuration. */
  datatype Bucket = Bucket(name: string, endpoint: string)

  /** Membership in the seven lower-case suffixes the OSS listing accepts. */
  predicate IsImageExtension(ext: string)
  {
    || ext == ".jpg" || ext == ".jpeg" || ext == ".png" || ext == ".gif"
    || ext == ".bmp" || ext == ".webp" || ext == ".svg"
  }

  /** `Path(key).suffix.lower() in image_extensions`, the test both
      `list_images` and `get_image_count` apply to every key. */
  predicate IsImageKey(key: string)
  {
    IsImageExtension(Lower(Suffix(Name(key))))
  }

  /** The image record built for one object. */
  function Info(b: Bucket, o: ObjectSummary): ImageInfo
  {
    ImageInfo(
      "https://" + b.name + "." + b.endpoint + "/" + o.key,
      Name(o.key),
      Some(o.size),
      if o.lastModified.Datetime? then Some(o.lastModified.iso) else None,
      map["key" := Some(o.key), "etag" := o.etag, "storage_class" := o.storageClass])
  }

  /** The record's fields: the public URL of the object, its last path
      component as the file name, its size, its rendered timestamp, and
      the three metadata entries, the first of them the object key. */
  lemma InfoFields(b: Bucket, o: ObjectSummary)
    ensures var r := Info(b, o);
      && r.url == "https://" + b.name + "." + b.endpoint + "/" + o.key
      && r.filename == Name(o.key) && r.size == Some(o.size)
      && r.createdAt == (if o.lastModified.Datetime? then Some(o.lastModified.iso) else None)
      && r.metadata.Keys == {"key", "etag", "storage_class"} && r.metadata["key"] == Some(o.key)
  {
  }

  // The listing is stated for any key filter `isImage`; the provider's own
  // filter is `IsImageKey`. Keeping the filter a parameter lets the proofs
  // below treat it as the yes/no question it is.

  /** The objects that pass the filter, as image records in iterator order:
      the unbounded stream. */
  function ImageStream(isImage: string -> bool, b: Bucket, objs: seq<ObjectSummary>): seq<ImageInfo>
  {
    if objs == [] then []
    else (if isImage(objs[0].key) then [Info(b, objs[0])] else []) + ImageStream(isImage, b, objs[1..])
  }

  /** The number of objects that pass the filter. */
  function ImageCount(isImage: string -> bool, objs: seq<ObjectSummary>): nat
  {
    if objs == [] then 0
    else (if isImage(objs[0].key) then 1 else 0) + ImageCount(isImage, objs[1..])
  }

  /** Some image object among `objs` has a record that cannot be built. */
  predicate MeetsBadRecord(isImage: string -> bool, objs: seq<ObjectSummary>)
  {
    exists j :: 0 <= j < |objs| && isImage(objs[j].key) && RecordRaises(objs[j])
  }

  /** The objects before the first image object whose record cannot be
      built: all of them when there is none. */
  function Rendered(isImage: string -> bool, objs: seq<ObjectSummary>): (r: seq<ObjectSummary>)
    ensures |r| <= |objs|
  {
    if objs == [] then []
    else if isImage(objs[0].key) && RecordRaises(objs[0]) then []
    else [objs[0]] + Rendered(isImage, objs[1..])
  }

  /** `Rendered` is the longest prefix without a failing image: it stops
      exactly at the first one, and takes everything when there is none. */
  lemma {:induction false} RenderedIsPrefixBeforeBad(isImage: string -> bool, objs: seq<ObjectSummary>)
    ensures var r := Rendered(isImage, objs);
      && r == objs[..|r|]
      && (forall j :: 0 <= j < |r| ==> !(isImage(r[j].key) && RecordRaises(r[j])))
      && (!MeetsBadRecord(isImage, objs) <==> r == objs)
      && (r != objs ==> isImage(objs[|r|].key) && RecordRaises(objs[|r|]))
  {
    if objs == [] {
    } else if isImage(objs[0].key) && RecordRaises(objs[0]) {
      assert MeetsBadRecord(isImage, objs);
    } else {
      var rest := objs[1..];
      RenderedIsPrefixBeforeBad(isImage, rest);
      MeetsBadStep(isImage, objs);
      var r := Rendered(isImage, rest);
      assert Rendered(isImage, objs) == [objs[0]] + r;
      assert forall j :: 0 <= j < |rest| ==> rest[j] == objs[j + 1];
      assert forall j :: 0 < j <= |r| ==> ([objs[0]] + r)[j] == r[j - 1];
    }
  }

  /** The loop of `list_images` from `count` images already yielded on:
      fetch the next object (raising when the iterator `faults` after the
      last), stop once the limit is reached, skip a non-image, build and
      yield the record of an image, raising when that record cannot be
      built. */
  function Scan(isImage: string -> bool, b: Bucket, objs: seq<ObjectSummary>, faults: bool,
                limit: Option<int>, count: nat): Enumeration
  {
    if objs == [] then Enumeration([], faults)
    else if Reached(limit, count) then Enumeration([], false)
    else if !isImage(objs[0].key) then Scan(isImage, b, objs[1..], faults, limit, count)
    else if RecordRaises(objs[0]) then Enumeration([], true)
    else
      var rest := Scan(isImage, b, objs[1..], faults, limit, count + 1);
      Enumeration([Info(b, objs[0])] + rest.items, rest.raised)
  }

  /** When the listing ends by raising, in closed form: at the first image
      whose record cannot be built, unless the limit stopped the loop
      first; with no such image, when the iterator raises after the last
      object, unless the limit stopped the loop on that last object. */
  predicate ListingRaises(isImage: string -> bool, objs: seq<ObjectSummary>, faults: bool, limit: Option<int>, count: int)
  {
    if MeetsBadRecord(isImage, objs) then
      !(Bounded(limit) && count + ImageCount(isImage, Rendered(isImage, objs)) >= limit.value)
    else
      faults && !(Bounded(limit) && objs != [] && count + ImageCount(isImage, objs[..|objs| - 1]) >= limit.value)
  }

  /** Past an object that is not a failing image, the listing meets a
      failing image exactly when the rest does. */
  lemma MeetsBadStep(isImage: string -> bool, objs: seq<ObjectSummary>)
    requires objs != [] && !(isImage(objs[0].key) && RecordRaises(objs[0]))
    ensures MeetsBadRecord(isImage, objs) <==> MeetsBadRecord(isImage, objs[1..])
  {
    if MeetsBadRecord(isImage, objs[1..]) {
      var j :| 0 <= j < |objs[1..]| && isImage(objs[1..][j].key) && RecordRaises(objs[1..][j]);
      assert objs[j + 1] == objs[1..][j];
    }
    if MeetsBadRecord(isImage, objs) {
      var j :| 0 <= j < |objs| && isImage(objs[j].key) && RecordRaises(objs[j]);
      assert j > 0 && objs[1..][j - 1] == objs[j];
    }
  }

  /** The listing is the stream of the images before the first failing
      record, cut at the limit. */
  lemma {:induction false} ScanItems(isImage: string -> bool, b: Bucket, objs: seq<ObjectSummary>, faults: bool,
                                     limit: Option<int>, count: nat)
    ensures var stream := ImageStream(isImage, b, Rendered(isImage, objs));
      Scan(isImage, b, objs, faults, limit, count).items
         == if Bounded(limit) then Take(stream, limit.value - count) else stream
  {
    if objs != [] && !Reached(limit, count) && !(isImage(objs[0].key) && RecordRaises(objs[0])) {
      var rest := objs[1..];
      var r := Rendered(isImage, rest);
      RenderedStep(isImage, b, objs);
      if isImage(objs[0].key) {
        ScanItems(isImage, b, rest, faults, limit, count + 1);
        if Bounded(limit) {
          TakeAppend([Info(b, objs[0])], ImageStream(isImage, b, r), limit.value - count);
        }
      } else {
        ScanItems(isImage, b, rest, faults, limit, count);
      }
    }
  }

  /** Past an object that is not a failing image, the rendered objects and
      their stream and count grow by that object. */
  lemma RenderedStep(isImage: string -> bool, b: Bucket, objs: seq<ObjectSummary>)
    requires objs != [] && !(isImage(objs[0].key) && RecordRaises(objs[0]))
    ensures var r := Rendered(isImage, objs[1..]);
      && Rendered(isImage, objs) == [objs[0]] + r
      && ImageStream(isImage, b, Rendered(isImage, objs))
         == (if isImage(objs[0].key) then [Info(b, objs[0])] else []) + ImageStream(isImage, b, r)
      && ImageCount(isImage, Rendered(isImage, objs)) == (if isImage(objs[0].key) then 1 else 0) + ImageCount(isImage, r)
  {
    var r := Rendered(isImage, objs[1..]);
    assert ([objs[0]] + r)[1..] == r;
  }

  /** The listing raises exactly as `ListingRaises` says. */
  lemma {:induction false} ScanRaises(isImage: string -> bool, b: Bucket, objs: seq<ObjectSummary>, faults: bool,
                                      limit: Option<int>, count: nat)
    ensures Scan(isImage, b, objs, faults, limit, count).raised <==> ListingRaises(isImage, objs, faults, limit, count)
  {
    if objs == [] {
      assert !MeetsBadRecord(isImage, objs);
    } else if isImage(objs[0].key) && RecordRaises(objs[0]) {
      assert MeetsBadRecord(isImage, objs);
    } else if !Reached(limit, count) {
      var c' := if isImage(objs[0].key) then count + 1 else count;
      ScanRaises(isImage, b, objs[1..], faults, limit, c');
      ListingRaisesStep(isImage, b, objs, faults, limit, count);
    }
  }

  /** Past an object that is not a failing image, with the limit not yet
      reached, the closed form moves on to the rest of the objects. */
  lemma ListingRaisesStep(isImage: string -> bool, b: Bucket, objs: seq<ObjectSummary>, faults: bool,
                          limit: Option<int>, count: nat)
    requires objs != [] && !(isImage(objs[0].key) && RecordRaises(objs[0])) && !Reached(limit, count)
    ensures var c' := if isImage(objs[0].key) then count + 1 else count;
      ListingRaises(isImage, objs, faults, limit, count) <==> ListingRaises(isImage, objs[1..], faults, limit, c')
  {
    var rest := objs[1..];
    MeetsBadStep(isImage, objs);
    RenderedStep(isImage, b, objs);
    if rest != [] {
      assert objs[..|objs| - 1] == [objs[0]] + rest[..|rest| - 1];
      assert objs[..|objs| - 1][1..] == rest[..|rest| - 1];
    }
  }

  /** The listing from object `i` stops there, raising exactly when the
      limit is not yet reached, once the limit is reached or the object is
      an image whose record cannot be built. */
  lemma ScanStops(isImage: string -> bool, b: Bucket, objs: seq<ObjectSummary>, faults: bool,
                  limit: Option<int>, count: nat, i: nat)
    requires i < |objs| && (Reached(limit, count) || (isImage(objs[i].key) && RecordRaises(objs[i])))
    ensures Scan(isImage, b, objs[i..], faults, limit, count) == Enumeration([], !Reached(limit, count))
  {
    assert objs[i..][0] == objs[i];
  }

  /** Short of the limit, an image object `i` whose record is built is
      yielded first, and counted. */
  lemma ScanYields(isImage: string -> bool, b: Bucket, objs: seq<ObjectSummary>, faults: bool,
                   limit: Option<int>, count: nat, i: nat)
    requires i < |objs| && !Reached(limit, count) && isImage(objs[i].key) && !RecordRaises(objs[i])
    ensures var rest := Scan(isImage, b, objs[i + 1..], faults, limit, count + 1);
      Scan(isImage, b, objs[i..], faults, limit, count) == Enumeration([Info(b, objs[i])] + rest.items, rest.raised)
  {
    assert objs[i..][0] == objs[i] && objs[i..][1..] == objs[i + 1..];
  }

  /** Short of the limit, a non-image object `i` is passed over. */
  lemma ScanSkips(isImage: string -> bool, b: Bucket, objs: seq<ObjectSummary>, faults: bool,
                  limit: Option<int>, count: nat, i: nat)
    requires i < |objs| && !Reached(limit, count) && !isImage(objs[i].key)
    ensures Scan(isImage, b, objs[i..], faults, limit, count) == Scan(isImage, b, objs[i + 1..], faults, limit, count)
  {
    assert objs[i..][0] == objs[i] && objs[i..][1..] == objs[i + 1..];
  }

  /** The loop of `list_images` for a given key filter. */
  method ScanObjects(isImage: string -> bool, b: Bucket, objs: seq<ObjectSummary>, faults: bool, limit: Option<int>)
    returns (items: seq<ImageInfo>, raised: bool)
    ensures Enumeration(items, raised) == Scan(isImage, b, objs, faults, limit, 0)
  {
    ghost var whole := Scan(isImage, b, objs, faults, limit, 0);
    assert objs[0..] == objs;
    items := [];
    var count := 0;
    var i := 0;
    while i < |objs|
      invariant 0 <= i <= |objs| && count == |items|
      invariant items + Scan(isImage, b, objs[i..], faults, limit, count).items == whole.items
      invariant Scan(isImage, b, objs[i..], faults, limit, count).raised == whole.raised
    {
      var stop;
      stop, raised, items, count := ScanTurn(isImage, b, objs, faults, limit, i, count, items, whole);
      if stop {
        return;
      }
      i := i + 1;
    }
    assert objs[i..] == [];
    raised := faults;
  }

  /** One turn of that loop at object `i`, `count` images yielded so far:
      stop once the limit is reached, otherwise yield the object's record
      if it is an image, and stop raising when that record cannot be
      built. */
  method ScanTurn(isImage: string -> bool, b: Bucket, objs: seq<ObjectSummary>, faults: bool, limit: Option<int>,
                  i: nat, count: nat, items: seq<ImageInfo>, ghost whole: Enumeration)
    returns (stop: bool, raised: bool, items': seq<ImageInfo>, count': nat)
    requires i < |objs| && count == |items|
    requires items + Scan(isImage, b, objs[i..], faults, limit, count).items == whole.items
    requires Scan(isImage, b, objs[i..], faults, limit, count).raised == whole.raised
    ensures stop ==> items' == whole.items && raised == whole.raised
    ensures !stop ==> && count' == |items'|
                      && items' + Scan(isImage, b, objs[i + 1..], faults, limit, count').items == whole.items
                      && Scan(isImage, b, objs[i + 1..], faults, limit, count').raised == whole.raised
  {
    if Reached(limit, count) || (isImage(objs[i].key) && RecordRaises(objs[i])) {
      ScanStops(isImage, b, objs, faults, limit, count, i);
      assert items + [] == items;
      return true, !Reached(limit, count), items, count;
    }
    stop, raised := false, false;
    if isImage(objs[i].key) {
      ScanYields(isImage, b, objs, faults, limit, count, i);
      var x := Info(b, objs[i]);
      assert (items + [x]) + Scan(isImage, b, objs[i + 1..], faults, limit, count + 1).items
          == items + ([x] + Scan(isImage, b, objs[i + 1..], faults, limit, count + 1).items);
      items', count' := items + [x], count + 1;
    } else {
      ScanSkips(isImage, b, objs, faults, limit, count, i);
      items', count' := items, count;
    }
  }

  /** `list_images(limit)`, consumed to the end: the image objects cut at a
      truthy limit, raising only if the iterator raises before the limit
      stops the loop. */
  method ListImages(b: Bucket, objs: seq<ObjectSummary>, faults: bool, limit: Option<int>)
    returns (items: seq<ImageInfo>, raised: bool)
    ensures Enumeration(items, raised) == Scan(IsImageKey, b, objs, faults, limit, 0)
    ensures items == Bound(ImageStream(IsImageKey, b, Rendered(IsImageKey, objs)), limit)
    ensures raised <==> ListingRaises(IsImageKey, objs, faults, limit, 0)
  {
    items, raised := ListWith(IsImageKey, b, objs, faults, limit);
  }

  /** The listing for a given key filter, with what it amounts to. */
  method ListWith(isImage: string -> bool, b: Bucket, objs: seq<ObjectSummary>, faults: bool, limit: Option<int>)
    returns (items: seq<ImageInfo>, raised: bool)
    ensures Enumeration(items, raised) == Scan(isImage, b, objs, faults, limit, 0)
    ensures items == Bound(ImageStream(isImage, b, Rendered(isImage, objs)), limit)
    ensures raised <==> ListingRaises(isImage, objs, faults, limit, 0)
  {
    items, raised := ScanObjects(isImage, b, objs, faults, limit);
    ScanItems(isImage, b, objs, faults, limit, 0);
    ScanRaises(isImage, b, objs, faults, limit, 0);
  }

  /** `get_image_count`: the number of image objects, or None when the
      iterator raises. */
  method GetImageCount(objs: seq<ObjectSummary>, faults: bool) returns (count: Option<int>)
    ensures faults ==> count == None
    ensures !faults ==> count == Some(ImageCount(IsImageKey, objs))
  {
    count := CountWith(IsImageKey, objs, faults);
  }

  /** The count for a given key filter: one pass over the objects. */
  method CountWith(isImage: string -> bool, objs: seq<ObjectSummary>, faults: bool) returns (count: Option<int>)
    ensures faults ==> count == None
    ensures !faults ==> count == Some(ImageCount(isImage, objs))
  {
    if faults {
      return None;
    }
    var n := 0;
    for i := 0 to |objs|
      invariant n + ImageCount(isImage, objs[i..]) == ImageCount(isImage, objs)
    {
      assert objs[i..][1..] == objs[i + 1..];
      if isImage(objs[i].key) {
        n := n + 1;
      }
    }
    assert objs[|objs|..] == [];
    return Some(n);
  }

  lemma {:induction false} StreamCounted(isImage: string -> bool, b: Bucket, objs: seq<ObjectSummary>)
    ensures |ImageStream(isImage, b, objs)| == ImageCount(isImage, objs)
  {
    if objs != [] {
      StreamCounted(isImage, b, objs[1..]);
    }
  }

  /** Counting distributes over concatenation. */
  lemma {:induction false} ImageCountAppend(isImage: string -> bool, xs: seq<ObjectSummary>, ys: seq<ObjectSummary>)
    ensures ImageCount(isImage, xs + ys) == ImageCount(isImage, xs) + ImageCount(isImage, ys)
  {
    if xs == [] {
      assert xs + ys == ys;
    } else {
      assert (xs + ys)[0] == xs[0] && (xs + ys)[1..] == xs[1..] + ys;
      ImageCountAppend(isImage, xs[1..], ys);
    }
  }

  /** The image count against the unbounded listing. With every image
      record buildable, the count is the listing's length and fails exactly
      when the listing raises: both walk the same objects with the same
      filter. Otherwise the listing raises at the first failing record,
      having yielded fewer images than the count, which never builds a
      record, reports. */
  lemma CountAgreesWithListing(b: Bucket, objs: seq<ObjectSummary>, faults: bool)
    ensures !MeetsBadRecord(IsImageKey, objs) ==>
      && (Scan(IsImageKey, b, objs, faults, None, 0).raised <==> faults)
      && |Scan(IsImageKey, b, objs, faults, None, 0).items| == ImageCount(IsImageKey, objs)
    ensures MeetsBadRecord(IsImageKey, objs) ==>
      && Scan(IsImageKey, b, objs, faults, None, 0).raised
      && |Scan(IsImageKey, b, objs, faults, None, 0).items| < ImageCount(IsImageKey, objs)
  {
    ScanItems(IsImageKey, b, objs, faults, None, 0);
    ScanRaises(IsImageKey, b, objs, faults, None, 0);
    StreamCounted(IsImageKey, b, Rendered(IsImageKey, objs));
    RenderedIsPrefixBeforeBad(IsImageKey, objs);
    if MeetsBadRecord(IsImageKey, objs) {
      RenderedCountsLess(IsImageKey, objs);
    }
  }

  /** The failing image is counted but not rendered. */
  lemma RenderedCountsLess(isImage: string -> bool, objs: seq<ObjectSummary>)
    requires MeetsBadRecord(isImage, objs)
    ensures ImageCount(isImage, Rendered(isImage, objs)) < ImageCount(isImage, objs)
  {
    var r := Rendered(isImage, objs);
    RenderedIsPrefixBeforeBad(isImage, objs);
    var tail := objs[|r|..];
    assert objs == r + tail;
    ImageCountAppend(isImage, r, tail);
    assert tail[0] == objs[|r|];
  }

  /** A truthy limit bounds the listing, and non-images do not use it up:
      with at least `limit` images before the first failing record, exactly
      `limit` are yielded. */
  lemma LimitIsExact(b: Bucket, objs: seq<ObjectSummary>, faults: bool, limit: int)
    requires limit > 0
    ensures var n := ImageCount(IsImageKey, Rendered(IsImageKey, objs));
      |Scan(IsImageKey, b, objs, faults, Some(limit), 0).items| == if n < limit then n else limit
  {
    ScanItems(IsImageKey, b, objs, faults, Some(limit), 0);
    StreamCounted(IsImageKey, b, Rendered(IsImageKey, objs));
  }

  /** The key `download_image` fetches: `metadata['key']` when it is there
      and non-empty, the filename otherwise. */
  function DownloadKey(info: ImageInfo): string
  {
    if "key" in info.metadata && info.metadata["key"].Some? && info.metadata["key"].value != "" then
      info.metadata["key"].value
    else
      info.filename
  }

  /** `download_image`: the SDK copies the object under `DownloadKey(info)`
      to the output path; `fetched(key)` says whether that copy completes,
      and any fault reads as False. */
  function DownloadImage(info: ImageInfo, fetched: string -> bool): (ok: bool)
  {
    fetched(DownloadKey(info))
  }

  /** `test_connection`: True exactly when `get_bucket_info` does not raise. */
  function TestConnection(infoRaises: bool): (ok: bool)
    ensures ok <==> !infoRaises
  {
    !infoRaises
  }

  /** A listed image is downloaded from its own object: the key read back
      from the record is the object's key, or, for the empty key, its file
      name. */
  lemma ListedImagesDownloadTheirObject(b: Bucket, o: ObjectSummary)
    ensures DownloadKey(Info(b, o)) == if o.key != "" then o.key else Name(o.key)
  {
    InfoFields(b, o);
  }

  /** Downloading a listed image succeeds exactly when the fetch of its
      object's key does (of its file name, for the empty key), and fails
      whenever that fetch faults. */
  lemma ListedImageDownload(b: Bucket, o: ObjectSummary, fetched: string -> bool)
    ensures DownloadImage(Info(b, o), fetched) <==> fetched(if o.key != "" then o.key else Name(o.key))
  {
    ListedImagesDownloadTheirObject(b, o);
  }

  /** Every streamed record is the record of an object that passed the
      filter. */
  lemma {:induction false} StreamComesFromObjects(isImage: string -> bool, b: Bucket, objs: seq<ObjectSummary>, i: nat)
    requires i < |ImageStream(isImage, b, objs)|
    ensures exists j :: 0 <= j < |objs| && isImage(objs[j].key) && ImageStream(isImage, b, objs)[i] == Info(b, objs[j])
  {
    var rest := ImageStream(isImage, b, objs[1..]);
    if isImage(objs[0].key) && i == 0 {
      assert 0 < |objs| && isImage(objs[0].key) && ImageStream(isImage, b, objs)[0] == Info(b, objs[0]);
    } else {
      var k := if isImage(objs[0].key) then i - 1 else i;
      assert ImageStream(isImage, b, objs)[i] == rest[k];
      StreamComesFromObjects(isImage, b, objs[1..], k);
      var j :| 0 <= j < |objs[1..]| && isImage(objs[1..][j].key) && rest[k] == Info(b, objs[1..][j]);
      assert objs[1..][j] == objs[j + 1];
    }
  }
}
