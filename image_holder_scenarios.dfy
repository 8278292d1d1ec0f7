/**
 * ImageHolder.getRefBitmap and generateMemoryCacheId on concrete holders,
 * caches and drawables: what a caller observes.
 */
module PlaceholderScenarios {
  import opened Wrappers
  import opened Placeholder

  /** Both flags set: force-use-resize comes first. */
  method FlaggedCacheId() returns (id: string)
    ensures id == "4" + ForceUseResizeSuffix + LowQualityImageSuffix
  {
    id := GenerateMemoryCacheId(4, None, true, true, None);
    assert Decimal(4) == "4";
  }

  /** A resize and a processor: their identifiers follow the resource id in that order. */
  method IdentifiedCacheId() returns (id: string)
    ensures id == "42_R_P"
  {
    var processor := ImageProcessor("_P", (b: Bitmap, r: Option<Resize>, f: bool, l: bool) => b);
    id := GenerateMemoryCacheId(42, Some(Resize("_R")), false, false, Some(processor));
    assert Digits(42) == Digits(4) + ['2'];
  }

  /** A negative resource id and nothing else: the id is String.valueOf(resId). */
  method PlainCacheId() returns (id: string)
    ensures id == "-7"
  {
    id := GenerateMemoryCacheId(-7, None, false, false, None);
    assert Decimal(-7) == "-" + "7";
  }

  /** A converted bitmap is cached; asking again returns the held one and leaves the cache alone. */
  method HeldBitmapReused() returns (first: RefBitmap?, second: RefBitmap?, cached: bool, cacheSize: nat)
    ensures first != null && first == second && cached && cacheSize == 1
  {
    var holder := new ImageHolder(1);
    var cache := new MemoryCache(map[]);
    var low := new Bitmap();
    var normal := new Bitmap();
    var drawable := OtherDrawable(low, normal);
    assert Decimal(1) == "1";
    first := holder.GetRefBitmap(cache, false, drawable);
    assert first != null && first.bitmap == normal && !normal.recycled && cache.entries == map["1" := first];
    assert holder.Holds();
    second := holder.GetRefBitmap(cache, false, drawable);
    cached := "1" in cache.entries && cache.entries["1"] == first;
    cacheSize := |cache.entries|;
  }

  /**
   * The id is computed once: changing a flag later does not change it. A
   * BitmapDrawable's bitmap is kept but not cached; once it is recycled and
   * nothing new can be built, the holder returns its old, recycled RefBitmap.
   */
  method MemoisedIdIgnoresLaterSetters() returns (id: Option<string>, first: RefBitmap?, second: RefBitmap?,
                                                 cacheSize: nat, secondRecycled: bool)
    ensures id == Some("7") && first != null && second == first && cacheSize == 0 && secondRecycled
  {
    var holder := new ImageHolder(7);
    var cache := new MemoryCache(map[]);
    var bitmap := new Bitmap();
    assert Decimal(7) == "7";
    first := holder.GetRefBitmap(cache, false, BitmapDrawable(bitmap));
    assert first != null && first.bitmap == bitmap && holder.memoryCacheId == Some("7") && cache.entries == map[];
    holder.SetLowQualityImage(true);
    bitmap.Recycle();
    second := holder.GetRefBitmap(cache, false, BitmapDrawable(bitmap));
    id := holder.memoryCacheId;
    cacheSize := |cache.entries|;
    secondRecycled := second != null && second.IsRecycled();
  }

  /** The global low-quality setting picks the low-quality conversion but leaves the id alone. */
  method GlobalLowQuality() returns (r: RefBitmap?, low: Bitmap, id: Option<string>)
    ensures r != null && r.bitmap == low && id == Some("3") && r.memoryCacheId == "3"
  {
    var holder := new ImageHolder(3);
    var cache := new MemoryCache(map[]);
    low := new Bitmap();
    var normal := new Bitmap();
    assert Decimal(3) == "3";
    r := holder.GetRefBitmap(cache, true, OtherDrawable(low, normal));
    id := holder.memoryCacheId;
  }

  /** A recycled cache entry is removed; a BitmapDrawable's bitmap does not take its place. */
  method RecycledEntryRemoved() returns (r: RefBitmap?, stillCached: bool)
    ensures r != null && !r.allowRecycle && !stillCached
  {
    var stale := new Bitmap();
    stale.Recycle();
    var entry := new RefBitmap(stale, "5", "5", true);
    var cache := new MemoryCache(map["5" := entry]);
    var holder := new ImageHolder(5);
    var bitmap := new Bitmap();
    assert Decimal(5) == "5";
    r := holder.GetRefBitmap(cache, false, BitmapDrawable(bitmap));
    stillCached := "5" in cache.entries;
  }

  /**
   * A processor that returns a new bitmap: the BitmapDrawable's own bitmap
   * is not recycled, and the new one is cached under an id that ends with
   * the processor's identifier.
   */
  method ProcessorReplacesBitmap() returns (r: RefBitmap?, processed: Bitmap, sourceRecycled: bool, cached: bool)
    ensures r != null && r.bitmap == processed && r.allowRecycle && !sourceRecycled && cached
  {
    processed := new Bitmap();
    var p := processed;
    var holder := new ImageHolder(9);
    var processor := ImageProcessor("_P", (b: Bitmap, z: Option<Resize>, f: bool, l: bool) => p);
    holder.SetImageProcessor(Some(processor));
    var cache := new MemoryCache(map[]);
    var source := new Bitmap();
    assert Decimal(9) + "_P" == "9_P";
    assert holder.CacheId() == "9_P";
    var drawable := BitmapDrawable(source);
    assert Usable(drawable, false);
    assert Build(drawable, Some(processor), None, false, false, true) == (p, true, true);
    r := holder.GetRefBitmap(cache, false, drawable);
    sourceRecycled := source.recycled;
    cached := "9_P" in cache.entries && cache.entries["9_P"] == r;
  }
}
