/**
 * ImageHolder: a placeholder image given by a resource id, its
 * memory-cache id, and the policy by which it reuses the bitmap it holds,
 * takes one from the placeholder memory cache, or builds a new one.
 *
 * Bitmaps are objects whose only state is whether they have been
 * recycled; the resources, drawableToBitmap and the image processor are
 * inputs whose answers are given, and the identifiers a Resize or an
 * ImageProcessor appends are opaque strings.
 */
module Placeholder {
  import opened Wrappers

  /** A Java int. */
  newtype int32 = x: int | -0x8000_0000 <= x < 0x8000_0000

  // ---------------------------------------------------------------------
  // String.valueOf(int) and its inverse

  predicate IsDigit(c: char)
  {
    '0' <= c <= '9'
  }

  predicate IsDigits(s: string)
  {
    forall i :: 0 <= i < |s| ==> IsDigit(s[i])
  }

  function DigitChar(d: nat): (c: char)
    requires d < 10
    ensures IsDigit(c) && c as int - '0' as int == d
  {
    ('0' as int + d) as char
  }

  /** The decimal digits of n, most significant first, without leading zeros. */
  function Digits(n: nat): (s: string)
    ensures 1 <= |s| && IsDigits(s)
    ensures s[0] == '0' <==> n == 0
    ensures |s| == 1 <==> n < 10
    decreases n
  {
    if n < 10 then [DigitChar(n)] else Digits(n / 10) + [DigitChar(n % 10)]
  }

  /** String.valueOf(int): a minus sign for negative values, then the digits of the magnitude. */
  function Decimal(n: int): (s: string)
    ensures 1 <= |s| && (s[0] == '-' <==> n < 0)
    ensures IsDigits(s[1..]) && '_' !in s
  {
    if n < 0 then "-" + Digits(-n) else Digits(n)
  }

  /** The value of a string of decimal digits. */
  function DigitsValue(s: string): (v: nat)
    requires IsDigits(s)
    decreases |s|
  {
    if |s| == 0 then 0 else DigitsValue(s[..|s| - 1]) * 10 + (s[|s| - 1] as int - '0' as int)
  }

  /** Integer.parseInt without its range check: an optional minus sign and at least one digit. */
  function ParseDecimal(s: string): Option<int>
  {
    if |s| > 1 && s[0] == '-' && IsDigits(s[1..]) then var magnitude: int := DigitsValue(s[1..]); Some(-magnitude)
    else if |s| > 0 && IsDigits(s) then Some(DigitsValue(s))
    else None
  }

  lemma {:induction false} DigitsRoundTrip(n: nat)
    ensures DigitsValue(Digits(n)) == n
    decreases n
  {
    if n >= 10 {
      var s := Digits(n / 10);
      DigitsRoundTrip(n / 10);
      assert (s + [DigitChar(n % 10)])[..|s|] == s;
    }
  }

  /** Parsing what String.valueOf gives returns the number. */
  lemma DecimalRoundTrip(n: int)
    ensures ParseDecimal(Decimal(n)) == Some(n)
  {
    var s := Decimal(n);
    if n < 0 {
      assert s[1..] == Digits(-n);
      DigitsRoundTrip(-n);
      assert |s| > 1 && s[0] == '-' && IsDigits(s[1..]);
    } else {
      assert s == Digits(n);
      DigitsRoundTrip(n);
      assert !IsDigit('-');
    }
  }

  /** Distinct numbers have distinct decimal forms. */
  lemma DecimalInjective(m: int, n: int)
    requires Decimal(m) == Decimal(n)
    ensures m == n
  {
    DecimalRoundTrip(m);
    DecimalRoundTrip(n);
  }

  // ---------------------------------------------------------------------
  // generateMemoryCacheId

  /** A Resize, reduced to the text its appendIdentifier("_", builder) appends. */
  datatype Resize = Resize(identifier: string)

  class Bitmap {
    var recycled: bool

    constructor ()
      ensures !recycled
    {
      recycled := false;
    }

    method Recycle()
      modifies this
      ensures recycled
    {
      recycled := true;
    }
  }

  /**
   * An ImageProcessor: the text its appendIdentifier("_", builder) appends,
   * and what process(sketch, bitmap, resize, forceUseResize, lowQualityImage)
   * returns (null when it fails with OutOfMemoryError).
   */
  datatype ImageProcessor = ImageProcessor(identifier: string, process: (Bitmap, Option<Resize>, bool, bool) -> Bitmap?)

  const ForceUseResizeSuffix: string := "_forceUseResize"
  const LowQualityImageSuffix: string := "_lowQualityImage"

  function ResizePart(resize: Option<Resize>): string
  {
    if resize.Some? then resize.value.identifier else ""
  }

  function ProcessorPart(imageProcessor: Option<ImageProcessor>): string
  {
    if imageProcessor.Some? then imageProcessor.value.identifier else ""
  }

  /** The suffixes the two flags add, force-use-resize first. */
  function FlagPart(forceUseResize: bool, lowQualityImage: bool): string
  {
    (if forceUseResize then ForceUseResizeSuffix else "") + (if lowQualityImage then LowQualityImageSuffix else "")
  }

  /**
   * generateMemoryCacheId: the decimal resource id, the resize identifier,
   * "_forceUseResize", "_lowQualityImage" and the processor identifier, in
   * that order, each only when present or set.
   */
  function GenerateMemoryCacheId(resId: int32, resize: Option<Resize>, forceUseResize: bool, lowQualityImage: bool,
                                 imageProcessor: Option<ImageProcessor>): (id: string)
    ensures Decimal(resId as int) <= id
    ensures resize.None? && !forceUseResize && !lowQualityImage && imageProcessor.None? ==> id == Decimal(resId as int)
  {
    Decimal(resId as int) + ResizePart(resize) + FlagPart(forceUseResize, lowQualityImage) + ProcessorPart(imageProcessor)
  }

  /**
   * Reads the two flags back from a memory-cache id, given the resource id
   * and the identifiers around them: the text between the resize identifier
   * and the processor identifier names exactly the flags that are set.
   */
  function ReadFlags(id: string, resId: int32, resize: Option<Resize>, imageProcessor: Option<ImageProcessor>)
    : Option<(bool, bool)>
  {
    var head := Decimal(resId as int) + ResizePart(resize);
    var tail := ProcessorPart(imageProcessor);
    if |head| + |tail| <= |id| && head <= id && id[|id| - |tail|..] == tail then
      var middle := id[|head|..|id| - |tail|];
      if middle == "" then Some((false, false))
      else if middle == ForceUseResizeSuffix then Some((true, false))
      else if middle == LowQualityImageSuffix then Some((false, true))
      else if middle == ForceUseResizeSuffix + LowQualityImageSuffix then Some((true, true))
      else None
    else None
  }

  /**
   * "_forceUseResize" and "_lowQualityImage" are in the id exactly when
   * their flags are set, in that order, after the resize identifier and
   * before the processor identifier.
   */
  lemma FlagsRoundTrip(resId: int32, resize: Option<Resize>, forceUseResize: bool, lowQualityImage: bool,
                       imageProcessor: Option<ImageProcessor>)
    ensures ReadFlags(GenerateMemoryCacheId(resId, resize, forceUseResize, lowQualityImage, imageProcessor),
                      resId, resize, imageProcessor) == Some((forceUseResize, lowQualityImage))
  {
    var head := Decimal(resId as int) + ResizePart(resize);
    var flags := FlagPart(forceUseResize, lowQualityImage);
    var tail := ProcessorPart(imageProcessor);
    var id := GenerateMemoryCacheId(resId, resize, forceUseResize, lowQualityImage, imageProcessor);
    assert id == head + flags + tail;
    assert id[|head|..|id| - |tail|] == flags;
    assert id[|id| - |tail|..] == tail;
  }

  /** Two ids built around the same resource id and identifiers differ whenever their flags do. */
  lemma FlagsDistinguishIds(resId: int32, resize: Option<Resize>, imageProcessor: Option<ImageProcessor>,
                            force1: bool, low1: bool, force2: bool, low2: bool)
    requires GenerateMemoryCacheId(resId, resize, force1, low1, imageProcessor)
             == GenerateMemoryCacheId(resId, resize, force2, low2, imageProcessor)
    ensures force1 == force2 && low1 == low2
  {
    FlagsRoundTrip(resId, resize, force1, low1, imageProcessor);
    FlagsRoundTrip(resId, resize, force2, low2, imageProcessor);
  }

  /** Text that is empty or starts with the "_" separator. */
  predicate Separated(s: string)
  {
    s == [] || s[0] == '_'
  }

  /** The text before the first "_". */
  function Head(s: string): (h: string)
    ensures h <= s && '_' !in h
    ensures |h| < |s| ==> s[|h|] == '_'
  {
    if s == [] || s[0] == '_' then [] else [s[0]] + Head(s[1..])
  }

  lemma {:induction false} HeadOfJoin(h: string, t: string)
    requires '_' !in h && Separated(t)
    ensures Head(h + t) == h
    decreases |h|
  {
    if h != [] {
      assert (h + t)[1..] == h[1..] + t;
      HeadOfJoin(h[1..], t);
    }
  }

  /** The resource id an id starts with: the number before its first "_". */
  function ReadResId(id: string): Option<int>
  {
    ParseDecimal(Head(id))
  }

  /**
   * The decimal resource id can be read back from the memory-cache id when
   * the resize identifier, and when it is empty whatever follows it, starts
   * with the "_" separator it is appended with.
   */
  lemma ResIdRoundTrip(resId: int32, resize: Option<Resize>, forceUseResize: bool, lowQualityImage: bool,
                       imageProcessor: Option<ImageProcessor>)
    requires Separated(ResizePart(resize) + FlagPart(forceUseResize, lowQualityImage) + ProcessorPart(imageProcessor))
    ensures ReadResId(GenerateMemoryCacheId(resId, resize, forceUseResize, lowQualityImage, imageProcessor)) == Some(resId as int)
  {
    var rest := ResizePart(resize) + FlagPart(forceUseResize, lowQualityImage) + ProcessorPart(imageProcessor);
    assert GenerateMemoryCacheId(resId, resize, forceUseResize, lowQualityImage, imageProcessor)
           == Decimal(resId as int) + rest;
    HeadOfJoin(Decimal(resId as int), rest);
    DecimalRoundTrip(resId as int);
  }

  // ---------------------------------------------------------------------
  // getRefBitmap

  /** A RefBitmap: a bitmap with its memory-cache id, image id and whether the cache may recycle it. */
  class RefBitmap {
    const bitmap: Bitmap
    const memoryCacheId: string
    const imageId: string
    const allowRecycle: bool

    constructor (bitmap: Bitmap, memoryCacheId: string, imageId: string, allowRecycle: bool)
      ensures this.bitmap == bitmap && this.memoryCacheId == memoryCacheId
      ensures this.imageId == imageId && this.allowRecycle == allowRecycle
    {
      this.bitmap := bitmap;
      this.memoryCacheId := memoryCacheId;
      this.imageId := imageId;
      this.allowRecycle := allowRecycle;
    }

    predicate IsRecycled()
      reads bitmap
    {
      bitmap.recycled
    }
  }

  /** The placeholder memory cache, reduced to its entries. */
  class MemoryCache {
    var entries: map<string, RefBitmap>

    constructor (entries: map<string, RefBitmap>)
      ensures this.entries == entries
    {
      this.entries := entries;
    }

    method Get(key: string) returns (r: RefBitmap?)
      ensures r == if key in entries then entries[key] else null
    {
      r := if key in entries then entries[key] else null;
    }

    method Remove(key: string)
      modifies this
      ensures entries == old(entries) - {key}
    {
      entries := entries - {key};
    }

    method Put(key: string, r: RefBitmap)
      modifies this
      ensures entries == old(entries)[key := r]
    {
      entries := entries[key := r];
    }
  }

  /**
   * What the resources give for the resource id: nothing, a
   * BitmapDrawable (possibly without a bitmap), or another drawable, given
   * by what drawableToBitmap makes of it in low and in normal quality.
   */
  datatype ResDrawable =
    | NoDrawable
    | BitmapDrawable(bitmap: Bitmap?)
    | OtherDrawable(lowQuality: Bitmap?, normalQuality: Bitmap?)

  /** The bitmaps drawableToBitmap can make from a drawable. */
  function Converted(d: ResDrawable): set<Bitmap>
  {
    if d.OtherDrawable? then NonNull(d.lowQuality) + NonNull(d.normalQuality) else {}
  }

  function NonNull(b: Bitmap?): set<Bitmap>
  {
    if b == null then {} else {b}
  }

  /**
   * The bitmap a drawable gives before processing, and whether it may be
   * recycled: a BitmapDrawable's own bitmap may not, a converted one may.
   */
  function Source(d: ResDrawable, lowQuality: bool): (Bitmap?, bool)
  {
    match d
    case NoDrawable => (null, true)
    case BitmapDrawable(b) => (b, false)
    case OtherDrawable(lq, nq) => (if lowQuality then lq else nq, true)
  }

  /**
   * What building ends with, given whether the source bitmap is there and
   * not recycled: the bitmap, whether it may be recycled, and whether the
   * processor replaced the source bitmap. A processor runs only on a usable
   * source bitmap; a bitmap it returns in place of the source may always be
   * recycled.
   */
  function Build(d: ResDrawable, imageProcessor: Option<ImageProcessor>, resize: Option<Resize>, forceUseResize: bool,
                 lowQuality: bool, sourceUsable: bool): (built: (Bitmap?, bool, bool))
    ensures built.2 ==> built.1 && sourceUsable && imageProcessor.Some?
    ensures !built.2 ==> built.0 == Source(d, lowQuality).0 && built.1 == Source(d, lowQuality).1
  {
    var (b0, allowRecycle) := Source(d, lowQuality);
    if b0 != null && sourceUsable && imageProcessor.Some? then
      var b := imageProcessor.value.process(b0, resize, forceUseResize, lowQuality);
      if b != b0 then (b, true, true) else (b0, allowRecycle, false)
    else (b0, allowRecycle, false)
  }

  /** The source bitmap is there and not recycled. */
  predicate Usable(d: ResDrawable, lowQuality: bool)
    reads Converted(d), if d.BitmapDrawable? && d.bitmap != null then {d.bitmap} else {}
  {
    Source(d, lowQuality).0 != null && !Source(d, lowQuality).0.recycled
  }

  /** SketchUtils.drawableToBitmap: the given conversion of the drawable in the asked quality; null for no drawable. */
  method DrawableToBitmap(drawable: ResDrawable, lowQuality: bool) returns (bitmap: Bitmap?)
    requires !drawable.BitmapDrawable?
    ensures bitmap == Source(drawable, lowQuality).0
  {
    bitmap := if drawable.OtherDrawable? then (if lowQuality then drawable.lowQuality else drawable.normalQuality) else null;
  }

  /**
   * The part of getRefBitmap that makes the bitmap: the drawable's own
   * bitmap or its conversion, then the processor's result, recycling the
   * source bitmap it replaces when that one may be recycled.
   */
  method MakeBitmap(drawable: ResDrawable, imageProcessor: Option<ImageProcessor>, resize: Option<Resize>,
                    forceUseResize: bool, lowQuality: bool)
    returns (bitmap: Bitmap?, allowRecycle: bool)
    modifies Converted(drawable)
    ensures var built := Build(drawable, imageProcessor, resize, forceUseResize, lowQuality, old(Usable(drawable, lowQuality)));
            && bitmap == built.0 && allowRecycle == built.1
            && (built.2 && Source(drawable, lowQuality).1 ==> Source(drawable, lowQuality).0.recycled)
            && (!(built.2 && Source(drawable, lowQuality).1) ==> unchanged(Converted(drawable)))
  {
    allowRecycle := false;
    if drawable.BitmapDrawable? {
      bitmap := drawable.bitmap;
    } else {
      bitmap := DrawableToBitmap(drawable, lowQuality);
      allowRecycle := true;
    }
    if bitmap != null && !bitmap.recycled && imageProcessor.Some? {
      var newBitmap := imageProcessor.value.process(bitmap, resize, forceUseResize, lowQuality);
      if newBitmap != bitmap {
        if allowRecycle {
          bitmap.Recycle();
        }
        bitmap := newBitmap;
        allowRecycle := true;
      }
    }
  }

  class ImageHolder {
    const resId: int32
    var resize: Option<Resize>
    var memoryCacheId: Option<string>
    var lowQualityImage: bool
    var forceUseResize: bool
    var imageProcessor: Option<ImageProcessor>
    var refBitmap: RefBitmap?

    constructor (resId: int32)
      ensures this.resId == resId && resize.None? && memoryCacheId.None?
      ensures !lowQualityImage && !forceUseResize && imageProcessor.None? && refBitmap == null
    {
      this.resId := resId;
      resize := None;
      memoryCacheId := None;
      lowQualityImage := false;
      forceUseResize := false;
      imageProcessor := None;
      refBitmap := null;
    }

    method SetForceUseResize(forceUseResize: bool)
      modifies this`forceUseResize
      ensures this.forceUseResize == forceUseResize
    {
      this.forceUseResize := forceUseResize;
    }

    method SetImageProcessor(imageProcessor: Option<ImageProcessor>)
      modifies this`imageProcessor
      ensures this.imageProcessor == imageProcessor
    {
      this.imageProcessor := imageProcessor;
    }

    method SetLowQualityImage(lowQualityImage: bool)
      modifies this`lowQualityImage
      ensures this.lowQualityImage == lowQualityImage
    {
      this.lowQualityImage := lowQualityImage;
    }

    method SetResize(resize: Option<Resize>)
      modifies this`resize
      ensures this.resize == resize
    {
      this.resize := resize;
    }

    /** The holder keeps a bitmap that is not recycled. */
    predicate Holds()
      reads this, if refBitmap != null then {refBitmap.bitmap} else {}
    {
      refBitmap != null && !refBitmap.IsRecycled()
    }

    /** The memory-cache id: the memoised one, or the one generated from the holder's own fields. */
    function CacheId(): string
      reads this
    {
      if memoryCacheId.Some? then memoryCacheId.value
      else GenerateMemoryCacheId(resId, resize, forceUseResize, lowQualityImage, imageProcessor)
    }

    /**
     * getRefBitmap: the held bitmap while it is not recycled; otherwise the
     * memory cache's entry for the (memoised) id while it is not recycled, a
     * recycled entry being removed; otherwise a newly built one.
     */
    method GetRefBitmap(cache: MemoryCache, globalLowQualityImage: bool, drawable: ResDrawable) returns (r: RefBitmap?)
      modifies this`memoryCacheId, this`refBitmap, cache, Converted(drawable)
      ensures r == refBitmap
      // a held bitmap is returned without touching the id or the cache
      ensures old(Holds()) ==>
                && refBitmap == old(refBitmap) && memoryCacheId == old(memoryCacheId)
                && cache.entries == old(cache.entries) && unchanged(Converted(drawable))
      // otherwise the id is memoised once, from the holder's own flags, whatever the global low-quality setting
      ensures !old(Holds()) ==> memoryCacheId == Some(old(CacheId()))
      ensures var key := old(CacheId());
              !old(Holds()) && key in old(cache.entries) && !old(cache.entries[key].IsRecycled()) ==>
                && refBitmap == old(cache.entries[key])
                && cache.entries == old(cache.entries) && unchanged(Converted(drawable))
      ensures var key := old(CacheId());
              var low := lowQualityImage || globalLowQualityImage;
              !old(Holds()) && !(key in old(cache.entries) && !old(cache.entries[key].IsRecycled())) ==>
                && Created(cache, drawable, key, low, old(refBitmap), old(cache.entries) - {key}, old(Usable(drawable, low)))
                && var recycles := Build(drawable, imageProcessor, resize, forceUseResize, low, old(Usable(drawable, low))).2
                                   && Source(drawable, low).1;
                   !recycles ==> unchanged(Converted(drawable))
      // only recyclable bitmaps are added to the cache
      ensures forall k :: k in cache.entries && (k !in old(cache.entries) || cache.entries[k] != old(cache.entries[k])) ==>
                cache.entries[k].allowRecycle
    {
      if refBitmap != null && !refBitmap.IsRecycled() {
        return refBitmap;
      }

      if memoryCacheId.None? {
        memoryCacheId := Some(GenerateMemoryCacheId(resId, resize, forceUseResize, lowQualityImage, imageProcessor));
      }
      r := LookUpOrCreate(cache, globalLowQualityImage, drawable);
    }

    /**
     * The part of getRefBitmap after the id is known: the cache's entry for
     * it while not recycled, a recycled entry being removed; otherwise a
     * newly built RefBitmap.
     */
    method LookUpOrCreate(cache: MemoryCache, globalLowQualityImage: bool, drawable: ResDrawable) returns (r: RefBitmap?)
      requires memoryCacheId.Some?
      modifies this`refBitmap, cache, Converted(drawable)
      ensures r == refBitmap
      ensures var key := memoryCacheId.value;
              key in old(cache.entries) && !old(cache.entries[key].IsRecycled()) ==>
                && refBitmap == old(cache.entries[key])
                && cache.entries == old(cache.entries) && unchanged(Converted(drawable))
      ensures var key := memoryCacheId.value;
              var low := lowQualityImage || globalLowQualityImage;
              !(key in old(cache.entries) && !old(cache.entries[key].IsRecycled())) ==>
                && Created(cache, drawable, key, low, old(refBitmap), old(cache.entries) - {key}, old(Usable(drawable, low)))
                && var recycles := Build(drawable, imageProcessor, resize, forceUseResize, low, old(Usable(drawable, low))).2
                                   && Source(drawable, low).1;
                   !recycles ==> unchanged(Converted(drawable))
      ensures forall k :: k in cache.entries && (k !in old(cache.entries) || cache.entries[k] != old(cache.entries[k])) ==>
                cache.entries[k].allowRecycle
    {
      var key := memoryCacheId.value;
      var cached := cache.Get(key);
      if cached != null {
        if !cached.IsRecycled() {
          refBitmap := cached;
          return refBitmap;
        } else {
          cache.Remove(key);
        }
      }
      assert cache.entries == old(cache.entries) - {key};

      var tempLowQualityImage := lowQualityImage;
      if globalLowQualityImage {
        tempLowQualityImage := true;
      }
      r := CreateRefBitmap(cache, key, tempLowQualityImage, drawable,
                           old(refBitmap), old(cache.entries) - {key}, old(Usable(drawable, lowQualityImage || globalLowQualityImage)));
    }

    /**
     * What building a new RefBitmap under `key` leads to, from the holder's
     * reference `held` and the cache entries `entries` before it: a usable
     * bitmap becomes the holder's new RefBitmap and enters the cache only
     * when it may be recycled; otherwise the holder and the cache stay as
     * they were. A replaced source bitmap is recycled only when it may be.
     */
    ghost predicate Created(cache: MemoryCache, drawable: ResDrawable, key: string, lowQuality: bool,
                            held: RefBitmap?, entries: map<string, RefBitmap>, sourceUsable: bool)
      reads this, cache, Converted(drawable), refBitmap, Build(drawable, imageProcessor, resize, forceUseResize, lowQuality, sourceUsable).0
    {
      var built := Build(drawable, imageProcessor, resize, forceUseResize, lowQuality, sourceUsable);
      var b := built.0;
      && (built.2 && Source(drawable, lowQuality).1 ==> Source(drawable, lowQuality).0.recycled)
      && (b != null && !b.recycled ==>
            && refBitmap != null && refBitmap.bitmap == b && refBitmap.allowRecycle == built.1
            && refBitmap.memoryCacheId == key && refBitmap.imageId == Decimal(resId as int)
            && cache.entries == if built.1 then entries[key := refBitmap] else entries)
      && (!(b != null && !b.recycled) ==> refBitmap == held && cache.entries == entries)
    }

    /** The last part of getRefBitmap: make the bitmap, wrap it, cache it when it may be recycled, keep it. */
    method CreateRefBitmap(cache: MemoryCache, key: string, lowQuality: bool, drawable: ResDrawable,
                           ghost held: RefBitmap?, ghost entries: map<string, RefBitmap>, ghost sourceUsable: bool)
      returns (r: RefBitmap?)
      requires held == refBitmap && entries == cache.entries && sourceUsable == Usable(drawable, lowQuality)
      modifies this`refBitmap, cache, Converted(drawable)
      ensures r == refBitmap
      ensures Created(cache, drawable, key, lowQuality, held, entries, sourceUsable)
      ensures var recycles := Build(drawable, imageProcessor, resize, forceUseResize, lowQuality, sourceUsable).2
                              && Source(drawable, lowQuality).1;
              !recycles ==> unchanged(Converted(drawable))
      ensures refBitmap != old(refBitmap) ==> fresh(refBitmap)
      ensures cache.entries == old(cache.entries) || (refBitmap != null && refBitmap.allowRecycle && cache.entries == old(cache.entries)[key := refBitmap])
    {
      var bitmap, allowRecycle := MakeBitmap(drawable, imageProcessor, resize, forceUseResize, lowQuality);
      if bitmap != null && !bitmap.recycled {
        var made := new RefBitmap(bitmap, key, Decimal(resId as int), allowRecycle);
        if made.allowRecycle {
          cache.Put(key, made);
        }
        refBitmap := made;
      }
      r := refBitmap;
    }
  }

}
